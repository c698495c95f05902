/**
 One-time recovery codes: how they are compared, how one is used up, and what a run of sign-ins
 can do with them. Bcrypt is a parameter that says whether a hash suits a text.
 */
module Recovery {
  import opened Records
  import opened Text

  type Check = (string, string) -> bool

  // ---- Normal form ----

  function LowerChar(c: char): char {
    if 'A' <= c <= 'Z' then 'a' + (c - 'A') else c
  }

  /** `strings.ToLower`, as far as ASCII goes. */
  function ToLower(s: string): (r: string)
    ensures |r| == |s|
  {
    seq(|s|, i requires 0 <= i < |s| => LowerChar(s[i]))
  }

  function Without(s: string, c: char): string {
    if s == "" then "" else (if s[0] == c then "" else [s[0]]) + Without(s[1..], c)
  }

  function NormRecovery(s: string): string {
    Without(Without(ToLower(TrimSpace(s)), '-'), ' ')
  }

  /** What is left of a text when case, dashes and spaces do not matter. */
  function Squeezed(s: string): string {
    Without(Without(ToLower(s), '-'), ' ')
  }

  lemma WithoutFirst(x: char, s: string, c: char)
    ensures Without([x] + s, c) == (if x == c then "" else [x]) + Without(s, c)
  {
    assert ([x] + s)[1..] == s;
  }

  lemma {:induction false} WithoutSum(s: string, t: string, c: char)
    ensures Without(s + t, c) == Without(s, c) + Without(t, c)
  {
    if s == "" {
      assert s + t == t;
    } else {
      var x, rest := s[0], s[1..];
      WithoutSum(rest, t, c);
      hide Without;
      assert s == [x] + rest && s + t == [x] + (rest + t);
      WithoutFirst(x, rest, c);
      WithoutFirst(x, rest + t, c);
    }
  }

  lemma ToLowerSum(s: string, t: string)
    ensures ToLower(s + t) == ToLower(s) + ToLower(t)
  {
  }

  lemma SqueezedSum(s: string, t: string)
    ensures Squeezed(s + t) == Squeezed(s) + Squeezed(t)
  {
    ToLowerSum(s, t);
    WithoutSum(ToLower(s), ToLower(t), '-');
    WithoutSum(Without(ToLower(s), '-'), Without(ToLower(t), '-'), ' ');
  }

  /** The same letter, but perhaps for its case. */
  predicate SameLetter(c: char, d: char) {
    c == d || ('A' <= c <= 'Z' && d as int == c as int + 32) || ('A' <= d <= 'Z' && c as int == d as int + 32)
  }

  /** Lowering leaves no capital, and tells texts apart exactly if they differ in more than case. */
  lemma LowersCase(s: string, t: string)
    ensures forall i :: 0 <= i < |s| ==> SameLetter(s[i], ToLower(s)[i]) && !('A' <= ToLower(s)[i] <= 'Z')
    ensures ToLower(s) == ToLower(t) <==> |s| == |t| && forall i :: 0 <= i < |s| ==> SameLetter(s[i], t[i])
  {
    if ToLower(s) == ToLower(t) {
      forall i | 0 <= i < |s| ensures SameLetter(s[i], t[i]) {
        assert ToLower(s)[i] == LowerChar(s[i]) && ToLower(t)[i] == LowerChar(t[i]);
      }
    }
  }

  /** Wherever it stands, a dash or a space makes no difference, and any other character stays, lowered. */
  lemma SqueezedAt(s: string, c: char, t: string)
    ensures c == '-' || c == ' ' ==> Squeezed(s + [c] + t) == Squeezed(s + t)
    ensures c != '-' && c != ' ' ==> exists d :: SameLetter(c, d) && !('A' <= d <= 'Z') && Squeezed(s + [c] + t) == Squeezed(s) + [d] + Squeezed(t)
  {
    SqueezedSum(s + [c], t);
    SqueezedSum(s, [c]);
    SqueezedSum(s, t);
    var d := LowerChar(c);
    assert ToLower([c]) == [d];
    WithoutFirst(d, "", '-');
    WithoutFirst(d, "", ' ');
    assert [d] + "" == [d];
    assert Squeezed([c]) == if c == '-' || c == ' ' then "" else [d];
    hide Squeezed, ToLower, Without;
    assert Squeezed(s) + "" == Squeezed(s);
  }

  /** Blanks vanish exactly when they are spaces. */
  lemma {:induction false} SqueezedBlanks(s: string)
    requires forall i :: 0 <= i < |s| ==> IsBlank(s[i])
    ensures Squeezed(s) == "" <==> forall i :: 0 <= i < |s| ==> s[i] == ' '
  {
    if s == "" {
    } else {
      var first, rest := [s[0]], s[1..];
      assert s == first + rest;
      SqueezedSum(first, rest);
      SqueezedBlanks(rest);
      SqueezedChar(s[0]);
    }
  }

  lemma SqueezedChar(c: char)
    requires IsBlank(c)
    ensures Squeezed([c]) == if c == ' ' then "" else [c]
  {
    assert ToLower([c]) == [c];
    assert Without([c], '-') == [c] + Without([c][1..], '-') == [c];
    assert Without([c], ' ') == (if c == ' ' then "" else [c]) + Without([c][1..], ' ');
  }

  lemma {:induction false} TrimLeftCuts(s: string)
    ensures |TrimLeft(s)| <= |s| && TrimLeft(s) == s[|s| - |TrimLeft(s)|..]
    ensures forall i :: 0 <= i < |s| - |TrimLeft(s)| ==> IsBlank(s[i])
  {
    if s != "" && IsBlank(s[0]) { TrimLeftCuts(s[1..]); }
  }

  lemma {:induction false} TrimRightCuts(s: string)
    ensures |TrimRight(s)| <= |s| && TrimRight(s) == s[..|TrimRight(s)|]
    ensures forall i :: |TrimRight(s)| <= i < |s| ==> IsBlank(s[i])
  {
    if s != "" && IsBlank(s[|s| - 1]) { TrimRightCuts(s[..|s| - 1]); }
  }

  /** What trimming takes off at the two ends. */
  function Cut(s: string): string
  {
    TrimLeftCuts(s);
    TrimRightCuts(TrimLeft(s));
    s[..|s| - |TrimLeft(s)|] + TrimLeft(s)[|TrimSpace(s)|..]
  }

  /**
   Case, dashes and spaces make no difference, wherever they stand, exactly as long as trimming takes off
   nothing but spaces: a tab at an end is dropped, but one behind a dash at the end is not.
   */
  lemma NormIsSqueezed(s: string)
    ensures NormRecovery(s) == Squeezed(s) <==> forall i :: 0 <= i < |Cut(s)| ==> Cut(s)[i] == ' '
  {
    var core := TrimSpace(s);
    var pre, post := TrimmedParts(s);
    NormIsCore(s);
    Around(pre, core, post);
    SqueezedBlanks(pre + post);
    hide NormRecovery, Squeezed, TrimSpace, Cut;
  }

  /** A text is what trimming takes off at the front, what it leaves, and what it takes off at the end. */
  lemma TrimmedParts(s: string) returns (pre: string, post: string)
    ensures s == pre + (TrimSpace(s) + post) && Cut(s) == pre + post
    ensures forall i :: 0 <= i < |pre + post| ==> IsBlank((pre + post)[i])
  {
    var left, core := TrimLeft(s), TrimSpace(s);
    TrimLeftCuts(s);
    TrimRightCuts(left);
    hide TrimLeft;
    pre, post := s[..|s| - |left|], left[|core|..];
    assert s == pre + left && left == core + post;
  }

  lemma Around(pre: string, core: string, post: string)
    ensures Squeezed(pre + (core + post)) == Squeezed(core) <==> Squeezed(pre + post) == ""
  {
    SqueezedSum(pre, core + post);
    SqueezedSum(core, post);
    SqueezedSum(pre, post);
    hide Squeezed;
    var a, b, c := Squeezed(pre), Squeezed(core), Squeezed(post);
    if |a| + |c| == 0 {
      assert a + (b + c) == b && a + c == "";
    } else {
      assert |a + (b + c)| > |b| && |a + c| > 0;
    }
  }

  /** Two spellings that differ in a dash only, and do not compare alike: behind the dash the tab is not trimmed. */
  lemma DashKeepsTab()
    ensures Squeezed("-\tx") == Squeezed("\tx") && NormRecovery("-\tx") != NormRecovery("\tx")
  {
    assert "-" + "\tx" == "-\tx";
    SqueezedSum("-", "\tx");
    DashVanishes();
    TrimSpaceTrims("-\tx");
    NormIsCore("-\tx");
    NormIsCore("\tx");
    TabGoes();
    assert "\t" + "x" == "\tx";
    SqueezedSum("\t", "x");
    SqueezedChar('\t');
    hide Squeezed, NormRecovery, TrimSpace;
  }

  lemma TabGoes()
    ensures TrimSpace("\tx") == "x"
  {
    assert TrimLeft("\tx") == TrimLeft("\tx"[1..]) && "\tx"[1..] == "x";
    assert TrimLeft("x") == "x" && TrimRight("x") == "x";
  }

  lemma NormIsCore(s: string)
    ensures NormRecovery(s) == Squeezed(TrimSpace(s))
  {
  }

  // ---- Using one up ----

  /** Where the first hash stands that suits the text; behind the last one if none does. */
  function Match(hashes: seq<string>, norm: string, check: Check): (i: nat)
    ensures i <= |hashes|
    ensures i < |hashes| ==> check(hashes[i], norm)
    ensures forall k :: 0 <= k < i ==> !check(hashes[k], norm)
  {
    if hashes == [] || check(hashes[0], norm) then 0 else 1 + Match(hashes[1..], norm, check)
  }

  predicate Accepts(hashes: seq<string>, code: string, check: Check) {
    NormRecovery(code) != "" && Match(hashes, NormRecovery(code), check) < |hashes|
  }

  function Consumed(hashes: seq<string>, code: string, check: Check): seq<string> {
    if !Accepts(hashes, code, check) then hashes
    else var i := Match(hashes, NormRecovery(code), check); hashes[..i] + hashes[i + 1..]
  }

  /** The codes of one user, in a slice of which `count` entries are in use. */
  class Codes {
    var slots: array<string>
    var count: nat

    ghost predicate Valid() reads this, slots {
      count <= slots.Length
    }

    ghost function Hashes(): seq<string>
      requires Valid()
      reads this, slots
    {
      slots[..count]
    }

    /** Replaces all codes by the hashes of these. */
    constructor (codes: seq<string>, hash: string -> string)
      ensures Valid() && fresh(slots)
      ensures Hashes() == seq(|codes|, i requires 0 <= i < |codes| => hash(NormRecovery(codes[i])))
    {
      var filled := new string[|codes|](_ => "");
      for i := 0 to |codes|
        invariant forall k :: 0 <= k < i ==> filled[k] == hash(NormRecovery(codes[k]))
      {
        filled[i] := hash(NormRecovery(codes[i]));
      }
      slots, count := filled, |codes|;
    }

    /** The codes as a record holds them. */
    constructor Load(hashes: seq<string>)
      ensures Valid() && fresh(slots) && Hashes() == hashes
    {
      slots := new string[|hashes|](i requires 0 <= i < |hashes| => hashes[i]);
      count := |hashes|;
    }

    /** Looks for a hash that suits, and closes the gap it leaves by moving the ones behind it up. */
    method Consume(code: string, check: Check) returns (accepted: bool)
      requires Valid()
      modifies this, slots
      ensures Valid() && slots == old(slots)
      ensures accepted == Accepts(old(Hashes()), code, check)
      ensures Hashes() == Consumed(old(Hashes()), code, check)
    {
      var norm := NormRecovery(code);
      if norm == "" { return false; }
      ghost var at := Match(Hashes(), norm, check);
      var i := 0;
      while i < count
        invariant i <= at
      {
        if check(slots[i], norm) {
          assert Hashes()[i] == slots[i];
          CloseGap(i);
          return true;
        }
        assert Hashes()[i] == slots[i];
        i := i + 1;
      }
      return false;
    }

    method CloseGap(i: nat)
      requires Valid() && i < count
      modifies this, slots
      ensures Valid() && slots == old(slots)
      ensures Hashes() == old(Hashes())[..i] + old(Hashes())[i + 1..]
    {
      var k := i;
      while k + 1 < count
        invariant i <= k < count && count == old(count) && slots == old(slots)
        invariant forall j :: 0 <= j < slots.Length ==>
          slots[j] == if i <= j < k then old(slots[j + 1]) else old(slots[j])
      {
        slots[k] := slots[k + 1];
        k := k + 1;
      }
      count := count - 1;
    }
  }

  /** Exactly one hash goes, the first that suits; the others keep their order. */
  lemma ConsumedIs(hashes: seq<string>, code: string, check: Check)
    requires Accepts(hashes, code, check)
    ensures exists before, h, after ::
      && hashes == before + [h] + after && Consumed(hashes, code, check) == before + after
      && check(h, NormRecovery(code)) && forall k :: 0 <= k < |before| ==> !check(before[k], NormRecovery(code))
    ensures multiset(Consumed(hashes, code, check)) < multiset(hashes)
  {
    var i := Match(hashes, NormRecovery(code), check);
    var before, h, after := hashes[..i], hashes[i], hashes[i + 1..];
    assert hashes == before + [h] + after;
    OneLess(before, h, after);
  }

  lemma OneLess(before: seq<string>, h: string, after: seq<string>)
    ensures multiset(before + after) < multiset(before + [h] + after)
  {
    assert multiset(before + [h] + after) == multiset(before) + multiset{h} + multiset(after);
    assert multiset(before + after) == multiset(before) + multiset(after);
    assert h in multiset(before + [h] + after) - multiset(before + after);
  }

  // ---- Runs ----

  /** The hashes left after a run of attempts. */
  function After(hashes: seq<string>, tried: seq<string>, check: Check): seq<string> {
    if tried == [] then hashes
    else Consumed(After(hashes, tried[..|tried| - 1], check), tried[|tried| - 1], check)
  }

  predicate Accepted(hashes: seq<string>, tried: seq<string>, k: nat, check: Check)
    requires k < |tried|
  {
    Accepts(After(hashes, tried[..k], check), tried[k], check)
  }

  /** Between two regenerations hashes only ever leave. */
  lemma {:induction false} RunShrinks(hashes: seq<string>, tried: seq<string>, check: Check)
    ensures multiset(After(hashes, tried, check)) <= multiset(hashes)
    ensures |After(hashes, tried, check)| <= |hashes|
  {
    if tried != [] {
      var n := |tried| - 1;
      RunShrinks(hashes, tried[..n], check);
      var before := After(hashes, tried[..n], check);
      if Accepts(before, tried[n], check) { ConsumedIs(before, tried[n], check); }
    }
  }

  /** Each hash suits the normal form of the code it was made from and nothing else, and no two codes have the same. */
  ghost predicate Issued(hashes: seq<string>, norms: seq<string>, check: Check) {
    && |hashes| == |norms|
    && (forall i, n :: 0 <= i < |hashes| ==> (check(hashes[i], n) <==> n == norms[i]))
    && (forall i, j :: 0 <= i < j < |norms| ==> norms[i] != norms[j])
    && "" !in norms
  }

  ghost predicate Suits(hashes: seq<string>, n: string, check: Check) {
    exists i :: 0 <= i < |hashes| && check(hashes[i], n)
  }

  /** No hash suits two texts, and no text two hashes. */
  ghost predicate Sharp(hashes: seq<string>, check: Check) {
    && (forall i, n, m :: 0 <= i < |hashes| && check(hashes[i], n) && check(hashes[i], m) ==> n == m)
    && (forall i, j, n :: 0 <= i < j < |hashes| && check(hashes[i], n) ==> !check(hashes[j], n))
  }

  /** Using a code takes the hash of that code, and takes nothing from any other. */
  lemma ConsumedSuits(hashes: seq<string>, code: string, check: Check, n: string)
    requires Sharp(hashes, check) && n != ""
    ensures Sharp(Consumed(hashes, code, check), check)
    ensures Accepts(hashes, code, check) <==> NormRecovery(code) != "" && Suits(hashes, NormRecovery(code), check)
    ensures Suits(Consumed(hashes, code, check), n, check) <==> Suits(hashes, n, check) && n != NormRecovery(code)
  {
    hide NormRecovery;
    var c := NormRecovery(code);
    var i := Match(hashes, c, check);
    if Accepts(hashes, code, check) {
      Gap(hashes, i, c, check, n);
    } else if n == c && Suits(hashes, n, check) {
      assert false;
    }
  }

  lemma Gap(hashes: seq<string>, i: nat, c: string, check: Check, n: string)
    requires Sharp(hashes, check) && i < |hashes| && check(hashes[i], c)
    ensures Sharp(hashes[..i] + hashes[i + 1..], check)
    ensures Suits(hashes[..i] + hashes[i + 1..], n, check) <==> Suits(hashes, n, check) && n != c
  {
    var rest := hashes[..i] + hashes[i + 1..];
    assert forall k :: 0 <= k < |rest| ==> rest[k] == hashes[if k < i then k else k + 1];
    if Suits(hashes, n, check) && n != c {
      var k :| 0 <= k < |hashes| && check(hashes[k], n);
      assert k != i;
      assert check(rest[if k < i then k else k - 1], n);
    }
  }

  lemma {:induction false} AfterSuits(hashes: seq<string>, tried: seq<string>, check: Check, n: string)
    requires Sharp(hashes, check) && n != ""
    ensures Sharp(After(hashes, tried, check), check)
    ensures Suits(After(hashes, tried, check), n, check) <==>
      Suits(hashes, n, check) && forall j :: 0 <= j < |tried| ==> NormRecovery(tried[j]) != n
  {
    if tried != [] {
      hide NormRecovery, Sharp, Suits, Consumed, Accepts, Match;
      var k, before := |tried| - 1, tried[..|tried| - 1];
      assert forall j :: 0 <= j < k ==> before[j] == tried[j];
      AfterSuits(hashes, before, check, n);
      ConsumedSuits(After(hashes, before, check), tried[k], check, n);
      assert After(hashes, tried, check) == Consumed(After(hashes, before, check), tried[k], check);
      hide After;
    }
  }

  /** Every code works exactly once: it is accepted if it was issued and nobody has used it before, in any spelling. */
  lemma EachCodeOnce(hashes: seq<string>, norms: seq<string>, tried: seq<string>, k: nat, check: Check)
    requires Issued(hashes, norms, check) && k < |tried|
    ensures Accepted(hashes, tried, k, check) <==>
      NormRecovery(tried[k]) in norms && forall j :: 0 <= j < k ==> NormRecovery(tried[j]) != NormRecovery(tried[k])
  {
    hide NormRecovery, Sharp, Suits, Consumed, Issued, After, Match;
    var n, before := NormRecovery(tried[k]), tried[..k];
    IssuedIsSharp(hashes, norms, check, n);
    assert forall j :: 0 <= j < k ==> before[j] == tried[j];
    if n != "" {
      AfterSuits(hashes, before, check, n);
      ConsumedSuits(After(hashes, before, check), tried[k], check, n);
    }
  }

  lemma IssuedIsSharp(hashes: seq<string>, norms: seq<string>, check: Check, n: string)
    requires Issued(hashes, norms, check)
    ensures Sharp(hashes, check) && "" !in norms
    ensures Suits(hashes, n, check) <==> n in norms
  {
    if n in norms {
      var i :| 0 <= i < |norms| && norms[i] == n;
      assert check(hashes[i], n);
    }
  }

  // ---- Generation ----

  /** Fifteen letters, shown in three groups. */
  function Formatted(s: string): string
    requires |s| >= 15
  {
    s[..5] + "-" + s[5..10] + "-" + s[10..15]
  }

  /** Letters of the base32 alphabet, in lower case. */
  predicate Base32(s: string) {
    forall i :: 0 <= i < |s| ==> 'a' <= s[i] <= 'z' || '2' <= s[i] <= '7'
  }

  lemma {:induction false} WithoutNone(s: string, c: char)
    requires c !in s
    ensures Without(s, c) == s
  {
    if s != "" {
      WithoutNone(s[1..], c);
      assert s == [s[0]] + s[1..];
    }
  }

  lemma SqueezedLetters(s: string)
    requires Base32(s)
    ensures Squeezed(s) == s
  {
    assert ToLower(s) == s;
    WithoutNone(s, '-');
    WithoutNone(s, ' ');
  }

  /** The grouping is for the eye: what is compared are the fifteen letters. */
  lemma FormattedNorm(s: string)
    requires |s| >= 15 && Base32(s)
    ensures NormRecovery(Formatted(s)) == s[..15]
    ensures |Formatted(s)| == 17 && Formatted(s)[5] == Formatted(s)[11] == '-'
  {
    var f := Formatted(s);
    assert TrimSpace(f) == f by { TrimSpaceTrims(f); }
    NormIsCore(f);
    Grouped(s[..5], s[5..10], s[10..15]);
    hide Squeezed, NormRecovery, TrimSpace;
    assert s[..5] + s[5..10] + s[10..15] == s[..15];
  }

  lemma Grouped(a: string, b: string, c: string)
    requires Base32(a) && Base32(b) && Base32(c)
    ensures Squeezed(a + "-" + b + "-" + c) == a + b + c
  {
    SqueezedSum(a + "-" + b + "-", c);
    SqueezedSum(a + "-" + b, "-");
    SqueezedSum(a + "-", b);
    SqueezedSum(a, "-");
    SqueezedLetters(a);
    SqueezedLetters(b);
    SqueezedLetters(c);
    DashVanishes();
    hide Squeezed, Base32;
    assert a + "" == a && a + b + "" == a + b;
  }

  lemma DashVanishes()
    ensures Squeezed("-") == ""
  {
    assert ToLower("-") == "-";
    assert Without("-", '-') == Without("-"[1..], '-') == "";
  }
}
