/** The handlers of the file routes over their two stores, next to the same steps of the protocol. */
module FileServer {
  import opened Records
  import opened Protocol
  import opened Server
  import opened Text
  import opened Uninterrupted
  import F = FileStore
  import M = VisibilityStore

  datatype Answer = Stored(id: Id) | Streamed(ciphertext: seq<Byte>) | Gone | Refused(why: Response)

  /** A file is refused when it is empty or too large, or asks for a lifetime out of range. */
  predicate AcceptableFile(body: seq<Byte>, ttl: string, maxSize: int, limits: Limits, parse: string -> Option<int>)
    requires 0 < limits.defaultTtl <= limits.maxTtl
  {
    body != [] && |body| <= maxSize && ResolveTtl(ttl, limits, parse).Ok?
  }

  class FileApi {
    const cfg: Config
    const enabled: bool
    const limits: Limits
    const maxSize: int
    const files: F.Store
    const marks: M.Store

    ghost predicate Valid() {
      marks.isOpen && 0 < limits.defaultTtl <= limits.maxTtl
    }

    ghost predicate Holds(s: State) reads files, marks {
      s.files == files.rows && s.marks == marks.ids
    }

    constructor (cfg: Config, enabled: bool, limits: Limits, maxSize: int)
      requires 0 < limits.defaultTtl <= limits.maxTtl
      ensures Valid() && this.cfg == cfg && this.enabled == enabled && this.limits == limits && this.maxSize == maxSize && Holds(START)
      ensures fresh(files) && fresh(marks)
    {
      this.cfg, this.enabled, this.limits, this.maxSize := cfg, enabled, limits, maxSize;
      files := new F.Store();
      marks := new M.Store(true);
    }

    /** POST /files: the file is stored, and marked if it is to be private, before the answer leaves. */
    method CreateFile(body: seq<Byte>, ttl: string, isPrivate: bool, parse: string -> Option<int>, env: Environment,
                      ghost start: State, ghost rid: Rid)
      returns (answer: Answer)
      requires Valid() && Holds(start) && env(AtFileStore).newId != ""
      modifies files, marks
      ensures !enabled ==> answer == Refused(NotFound) && Holds(start)
      ensures enabled && !AcceptableFile(body, ttl, maxSize, limits, parse) ==> answer in {Refused(BadRequest), Refused(TooLarge)} && Holds(start)
      ensures answer == Refused(TooLarge) <==> enabled && |body| > maxSize && body != []
      ensures answer == Refused(BadRequest) <==>
        enabled && (body == [] || (|body| <= maxSize && Unusable(TrimSpace(ttl), limits.maxTtl, parse)))
      ensures answer.Stored? ==>
        && answer.id in files.rows && files.rows[answer.id].Row?
        && var x := files.rows[answer.id].value;
           && x.ciphertext == body && x.size == |body| && x.createdAt == env(AtFileStore).at
           && LivesFor(x.expiresAt - x.createdAt, TrimSpace(ttl), limits.defaultTtl, parse)
      ensures enabled && AcceptableFile(body, ttl, maxSize, limits, parse) ==>
        var id, at, life := env(AtFileStore).newId, env(AtFileStore).at, ResolveTtl(ttl, limits, parse).value;
        && Holds(Alone(cfg, Goto(start, rid, FileStore(NewFile(body, life, isPrivate))), rid, env))
        && answer == (if env(AtFileStore).commits then Stored(id) else Refused(Internal))
        && files.rows == (if env(AtFileStore).commits then start.files[id := Row(F.File(body, at, at + life, |body|))] else start.files)
        && marks.ids == (if env(AtFileStore).commits && isPrivate && cfg.authEnabled && env(AtFileMark).commits
                         then start.marks + {id} else start.marks)
    {
      hide AdvanceStep, Alone;
      if !enabled { return Refused(NotFound); }
      if body == [] { return Refused(BadRequest); }
      if |body| > maxSize { return Refused(TooLarge); }
      var life := ResolveTtl(ttl, limits, parse);
      if life.Err? { return Refused(BadRequest); }
      ghost var file := NewFile(body, life.value, isPrivate);
      ghost var t := Goto(start, rid, FileStore(file));
      FileStoreAlong(cfg, t, rid, file, env);
      t := FileStoreStep(cfg, t, rid, file, env(AtFileStore));
      var id, at := env(AtFileStore).newId, env(AtFileStore).at;
      var created := files.Create(id, F.File(body, at, at + life.value, |body|), env(AtFileStore).commits);
      if created.Err? {
        DoneAlone(cfg, t, rid, env);
        return Refused(Internal);
      }
      if cfg.authEnabled && isPrivate {
        FileMarkAlong(cfg, t, rid, id, env);
        var _ := marks.SetPrivate(id, env(AtFileMark).commits);
      } else {
        DoneAlone(cfg, t, rid, env);
      }
      return Stored(id);
    }

    /** POST /files/:id/reveal: behind the gate the file is burned, and its mark dropped if there was one to hand out. */
    method RevealFile(id: Id, now: Time, env: Environment, ghost start: State, ghost rid: Rid)
      returns (answer: Answer, ghost caller: Caller)
      requires Valid() && Holds(start) && now == start.now && id != ""
      modifies files, marks
      ensures !enabled ==> answer == Refused(NotFound) && Holds(start)
      ensures enabled ==> Holds(Alone(cfg, Goto(start, rid, Gate(FileRoute, id)), rid, env))
      ensures answer.Streamed? ==> id in start.files && F.Live(start.files[id], now) && answer.ciphertext == start.files[id].value.ciphertext
      ensures answer.Streamed? && cfg.authEnabled && (cfg.gateAll || id in start.marks) ==> caller.verified
      ensures answer.Streamed? ==> files.rows == start.files - {id}
      ensures answer == Refused(Unauthorized) <==> enabled && Asks(cfg, start.marks, id, env) && env(AtSession).session == Denied
      ensures enabled && env(AtGate).commits && env(AtSession).session.Verified? ==>
        answer ==
          if !env(AtFileBurn).commits then Refused(Internal)
          else if id in start.files && start.files[id].Row?
                  && (start.files[id].value.expiresAt == ZERO_TIME || now <= start.files[id].value.expiresAt)
          then Streamed(start.files[id].value.ciphertext) else Gone
    {
      hide AdvanceStep, Alone, Asks;
      caller := Caller(false, false);
      if !enabled { return Refused(NotFound), caller; }
      ghost var t := Goto(start, rid, Gate(FileRoute, id));
      var refusal, u, known := RevealGate(cfg, marks, FileRoute, id, env, t, rid);
      caller := known;
      if refusal.Some? {
        DoneAlone(cfg, u, rid, env);
        return Refused(refusal.value), caller;
      }
      FileBurnAlong(cfg, u, rid, id, caller, env);
      u := FileBurnStep(u, rid, id, env(AtFileBurn));
      var burned := files.GetAndBurn(id, now, env(AtFileBurn).commits);
      if burned.Err? {
        DoneAlone(cfg, u, rid, env);
        return Refused(Internal), caller;
      }
      if burned.value.None? {
        DoneAlone(cfg, u, rid, env);
        return Gone, caller;
      }
      DropAlong(cfg, u, rid, id, env);
      u := DropMarkStep(u, rid, id, env(AtDrop));
      DoneAlone(cfg, u, rid, env);
      var _ := marks.Delete(id, env(AtDrop).commits);
      return Streamed(burned.value.value.ciphertext), caller;
    }
  }
}
