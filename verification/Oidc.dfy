/** Who may sign in through an identity provider, and as what. */
module Oidc {
  import opened Records
  import opened Text
  import opened Recovery
  import opened Users
  import opened Accounts

  datatype Provider = Provider(
    requireVerified: bool, allowedEmails: seq<string>, allowedDomains: seq<string>, adminEmails: seq<string>,
    adminGroups: seq<string>, userGroups: seq<string>, groupsClaim: string, defaultRole: string)

  /** A claim as the token carries it: an array of anything, an array of strings, a string, or something else. */
  datatype Claim = Array(items: seq<Option<string>>) | Strings(texts: seq<string>) | Single(text: string) | Odd

  datatype Claims = Claims(subject: string, email: string, verified: bool, name: string, raw: Option<map<string, Claim>>)

  // ---- Searching and gathering ----

  /** Lower case, trimmed, and without what is then empty. */
  function LowerTrimmed(list: seq<string>): seq<string> {
    if list == [] then []
    else
      var s := ToLower(TrimSpace(list[|list| - 1]));
      LowerTrimmed(list[..|list| - 1]) + if s != "" then [s] else []
  }

  method LowerTrimAll(list: seq<string>) returns (out: seq<string>)
    ensures out == LowerTrimmed(list)
  {
    if list == [] { return list; }
    out := [];
    for i := 0 to |list|
      invariant out == LowerTrimmed(list[..i])
    {
      var s := ToLower(TrimSpace(list[i]));
      assert list[..i + 1][..i] == list[..i];
      if s != "" { out := out + [s]; }
    }
    assert list[..|list|] == list;
  }

  method MatchEmail(email: string, want: seq<string>) returns (found: bool)
    ensures found <==> email in want
  {
    for i := 0 to |want|
      invariant email !in want[..i]
    {
      if email == want[i] { return true; }
    }
    return false;
  }

  /** Some group of the user, in lower case, is wanted. */
  predicate InGroups(groups: seq<string>, want: seq<string>) {
    exists i :: 0 <= i < |groups| && ToLower(groups[i]) in want
  }

  method AnyGroupMatch(groups: seq<string>, want: seq<string>) returns (found: bool)
    ensures found <==> InGroups(groups, want)
  {
    for i := 0 to |groups|
      invariant forall k :: 0 <= k < i ==> ToLower(groups[k]) !in want
    {
      var gl := ToLower(groups[i]);
      for j := 0 to |want|
        invariant gl !in want[..j]
      {
        if gl == want[j] { return true; }
      }
      assert want[..|want|] == want;
    }
    return false;
  }

  function Texts(items: seq<Option<string>>): seq<string> {
    if items == [] then []
    else Texts(items[..|items| - 1]) + if items[|items| - 1].Some? then [items[|items| - 1].value] else []
  }

  /** The groups a token names under the configured claim; anything that is no text is passed over. */
  function GroupsOf(c: Claims, claim: string): seq<string> {
    if claim == "" || c.raw.None? || claim !in c.raw.value then []
    else match c.raw.value[claim]
      case Array(items) => Texts(items)
      case Strings(texts) => texts
      case Single(text) => [text]
      case Odd => []
  }

  method ExtractGroups(c: Claims, claim: string) returns (groups: seq<string>)
    ensures groups == GroupsOf(c, claim)
  {
    if claim == "" || c.raw.None? { return []; }
    if claim !in c.raw.value { return []; }
    match c.raw.value[claim]
    case Array(items) =>
      groups := [];
      for i := 0 to |items|
        invariant groups == Texts(items[..i])
      {
        assert items[..i + 1][..i] == items[..i];
        if items[i].Some? { groups := groups + [items[i].value]; }
      }
      assert items[..|items|] == items;
    case Strings(texts) => return texts;
    case Single(text) => return [text];
    case Odd => return [];
  }

  /** Where the last such character stands, or -1. */
  function LastIndex(s: string, c: char): (i: int)
    ensures -1 <= i < |s|
    ensures i >= 0 ==> s[i] == c
    ensures forall k :: i < k < |s| ==> s[k] != c
  {
    if s == "" then -1 else if s[|s| - 1] == c then |s| - 1 else LastIndex(s[..|s| - 1], c)
  }

  // ---- Admission and role ----

  function EmailOf(c: Claims): string {
    TrimSpace(ToLower(c.email))
  }

  predicate InDomain(p: Provider, email: string) {
    var at := LastIndex(email, '@'); at >= 0 && email[at + 1..] in p.allowedDomains
  }

  predicate Unrestricted(p: Provider) {
    p.allowedEmails == [] && p.adminEmails == [] && p.allowedDomains == [] && p.adminGroups == [] && p.userGroups == []
  }

  /** The rules for getting in at all. */
  predicate Admitted(p: Provider, c: Claims) {
    && (p.requireVerified ==> c.verified)
    && var email, groups := EmailOf(c), GroupsOf(c, p.groupsClaim);
       || email in p.allowedEmails || email in p.adminEmails
       || InDomain(p, email)
       || InGroups(groups, p.adminGroups) || InGroups(groups, p.userGroups)
       || Unrestricted(p)
  }

  lemma NoClaimNoGroups(p: Provider, c: Claims)
    ensures p.groupsClaim == "" ==> GroupsOf(c, p.groupsClaim) == []
    ensures forall want :: !InGroups([], want)
    ensures forall groups :: !InGroups(groups, [])
  {
  }

  // ---- The same without any of these functions ----

  /** The token carries this text under the claim. */
  predicate Carries(c: Claims, claim: string, text: string) {
    && claim != "" && c.raw.Some? && claim in c.raw.value
    && match c.raw.value[claim]
       case Array(items) => Some(text) in items
       case Strings(texts) => text in texts
       case Single(one) => text == one
       case Odd => false
  }

  lemma {:induction false} TextsAre(items: seq<Option<string>>, text: string)
    ensures text in Texts(items) <==> Some(text) in items
  {
    if items != [] {
      TextsAre(items[..|items| - 1], text);
      assert items == items[..|items| - 1] + [items[|items| - 1]];
    }
  }

  lemma OneText(text: string)
    ensures Texts([Some(text)]) == [text] && Texts([None]) == []
  {
    var one: seq<Option<string>>, none: seq<Option<string>> := [Some(text)], [None];
    assert one[..0] == [] && none[..0] == [];
    assert Texts(one) == Texts([]) + [text] == [text] && Texts(none) == Texts([]) + [] == [];
  }

  /** They stand in the order in which the token has them. */
  lemma {:induction false} TextsInOrder(before: seq<Option<string>>, after: seq<Option<string>>)
    ensures Texts(before + after) == Texts(before) + Texts(after)
  {
    if after == [] {
      assert before + after == before;
    } else {
      var n := |after| - 1;
      TextsInOrder(before, after[..n]);
      assert (before + after)[..|before + after| - 1] == before + after[..n];
    }
  }

  lemma GroupsAre(c: Claims, claim: string, text: string)
    ensures text in GroupsOf(c, claim) <==> Carries(c, claim, text)
  {
    if claim != "" && c.raw.Some? && claim in c.raw.value && c.raw.value[claim].Array? {
      TextsAre(c.raw.value[claim].items, text);
    }
    hide Texts;
  }

  /** The address is one at this host: something, an at-sign, and the host behind the last one. */
  ghost predicate At(email: string, host: string) {
    '@' !in host && exists local: string :: email == local + "@" + host
  }

  lemma InDomainIs(p: Provider, email: string)
    ensures InDomain(p, email) <==> exists host :: host in p.allowedDomains && At(email, host)
  {
    var at := LastIndex(email, '@');
    if at >= 0 {
      var host := email[at + 1..];
      assert email == email[..at] + "@" + host;
      assert '@' !in host;
      assert At(email, host);
    }
    forall host | At(email, host) ensures at >= 0 && email[at + 1..] == host {
      var local: string :| email == local + "@" + host;
      assert email[|local|] == '@';
      assert forall k :: |local| < k < |email| ==> email[k] == host[k - |local| - 1];
      assert at == |local|;
    }
  }

  lemma InGroupsAre(c: Claims, claim: string, want: seq<string>)
    ensures InGroups(GroupsOf(c, claim), want) <==> exists g :: Carries(c, claim, g) && ToLower(g) in want
  {
    var groups := GroupsOf(c, claim);
    forall g ensures g in groups <==> Carries(c, claim, g) { GroupsAre(c, claim, g); }
    hide GroupsOf, Carries, ToLower;
    if g :| Carries(c, claim, g) && ToLower(g) in want {
      assert g in groups;
      var i :| 0 <= i < |groups| && groups[i] == g;
      assert ToLower(groups[i]) in want;
    }
    if InGroups(groups, want) {
      var i :| 0 <= i < |groups| && ToLower(groups[i]) in want;
      assert groups[i] in groups;
    }
  }

  /** Who gets in: by address, by host, by a group, or where nothing at all is listed. */
  ghost predicate Allowed(p: Provider, c: Claims) {
    && (p.requireVerified ==> c.verified)
    && (|| Normalize(c.email) in p.allowedEmails || Normalize(c.email) in p.adminEmails
        || (exists host :: host in p.allowedDomains && At(Normalize(c.email), host))
        || (exists g :: Carries(c, p.groupsClaim, g) && ToLower(g) in p.adminGroups)
        || (exists g :: Carries(c, p.groupsClaim, g) && ToLower(g) in p.userGroups)
        || p.allowedEmails == p.adminEmails == p.allowedDomains == p.adminGroups == p.userGroups == [])
  }

  lemma AdmittedIs(p: Provider, c: Claims)
    ensures Admitted(p, c) <==> Allowed(p, c)
  {
    EmailIsKey(c);
    InDomainIs(p, EmailOf(c));
    InGroupsAre(c, p.groupsClaim, p.adminGroups);
    InGroupsAre(c, p.groupsClaim, p.userGroups);
    hide InDomain, InGroups, At, Carries, GroupsOf, EmailOf, Normalize, ToLower;
  }

  /** Where nothing but hosts is listed, it is the host of the address that counts. */
  lemma HostDecides(p: Provider, c: Claims)
    requires p.allowedDomains != [] && p.allowedEmails == p.adminEmails == p.adminGroups == p.userGroups == []
    ensures Admitted(p, c) <==>
      (p.requireVerified ==> c.verified) && exists host :: host in p.allowedDomains && At(Normalize(c.email), host)
  {
    AdmittedIs(p, c);
    hide Admitted, At, Normalize, Carries;
  }

  /** Which role comes out, and from which rule. */
  lemma GrantIs(p: Provider, c: Claims, groups: seq<string>)
    ensures var g, named := GrantOf(p, c, groups), Normalize(c.email) in p.adminEmails;
      var asAdmin, asUser := exists x :: x in groups && ToLower(x) in p.adminGroups, exists x :: x in groups && ToLower(x) in p.userGroups;
      var otherwise := ToLower(TrimSpace(p.defaultRole));
      && (g.pinned <==> named)
      && (g.role == Some(Admin) <==> named || asAdmin || (!asUser && otherwise == "admin"))
      && (g.role == Some(Member) <==> !named && !asAdmin && (asUser || otherwise == "user"))
  {
    EmailIsKey(c);
    AnyGroup(groups, p.adminGroups);
    AnyGroup(groups, p.userGroups);
    hide InGroups, EmailOf, Normalize, ToLower, TrimSpace;
  }

  lemma AnyGroup(groups: seq<string>, want: seq<string>)
    ensures InGroups(groups, want) <==> exists x :: x in groups && ToLower(x) in want
  {
    hide ToLower;
    if x :| x in groups && ToLower(x) in want {
      var i :| 0 <= i < |groups| && groups[i] == x;
      assert ToLower(groups[i]) in want;
    }
  }

  method MatchDomain(p: Provider, email: string) returns (found: bool)
    ensures found <==> InDomain(p, email)
    ensures found <==> exists host :: host in p.allowedDomains && At(email, host)
  {
    InDomainIs(p, email);
    hide At;
    if |p.allowedDomains| > 0 {
      var at := LastIndex(email, '@');
      if at >= 0 {
        var host := email[at + 1..];
        for i := 0 to |p.allowedDomains|
          invariant host !in p.allowedDomains[..i]
        {
          if host == p.allowedDomains[i] { return true; }
        }
        assert p.allowedDomains[..|p.allowedDomains|] == p.allowedDomains;
      }
    }
    return false;
  }

  method Admit(p: Provider, c: Claims) returns (r: Result<seq<string>>)
    ensures r.Ok? <==> Admitted(p, c)
    ensures r.Ok? <==> Allowed(p, c)
    ensures r.Ok? ==> r.value == GroupsOf(c, p.groupsClaim)
  {
    AdmittedIs(p, c);
    hide InDomain, InGroups, Allowed;
    NoClaimNoGroups(p, c);
    if p.requireVerified && !c.verified { return Err("email not verified by issuer"); }
    var email := TrimSpace(ToLower(c.email));
    var gs := ExtractGroups(c, p.groupsClaim);
    var allowed := MatchEmail(email, p.allowedEmails);
    if allowed { return Ok(gs); }
    var admin := MatchEmail(email, p.adminEmails);
    if admin { return Ok(gs); }
    var home := MatchDomain(p, email);
    if home { return Ok(gs); }
    if p.groupsClaim != "" && (|p.adminGroups| > 0 || |p.userGroups| > 0) {
      var asAdmin := AnyGroupMatch(gs, p.adminGroups);
      if asAdmin { return Ok(gs); }
      var asUser := AnyGroupMatch(gs, p.userGroups);
      if asUser { return Ok(gs); }
    }
    if |p.allowedEmails| == 0 && |p.adminEmails| == 0 && |p.allowedDomains| == 0 && |p.adminGroups| == 0 && |p.userGroups| == 0 {
      return Ok(gs);
    }
    return Err("user not in any allowlist");
  }

  /** The role, whether it is pinned, and nothing if no rule grants any. */
  datatype Grant = Grant(role: Option<Role>, pinned: bool)

  function DefaultRole(p: Provider): Option<Role> {
    var d := ToLower(TrimSpace(p.defaultRole));
    if d == "admin" then Some(Admin) else if d == "user" then Some(Member) else None
  }

  function GrantOf(p: Provider, c: Claims, groups: seq<string>): Grant {
    if EmailOf(c) in p.adminEmails then Grant(Some(Admin), true)
    else if InGroups(groups, p.adminGroups) then Grant(Some(Admin), false)
    else if InGroups(groups, p.userGroups) then Grant(Some(Member), false)
    else Grant(DefaultRole(p), false)
  }

  method RoleFor(p: Provider, c: Claims, groups: seq<string>) returns (g: Grant)
    ensures g == GrantOf(p, c, groups)
  {
    var email := TrimSpace(ToLower(c.email));
    for i := 0 to |p.adminEmails|
      invariant email !in p.adminEmails[..i]
    {
      if email == p.adminEmails[i] { return Grant(Some(Admin), true); }
    }
    assert p.adminEmails[..|p.adminEmails|] == p.adminEmails;
    if |p.adminGroups| > 0 {
      var asAdmin := AnyGroupMatch(groups, p.adminGroups);
      if asAdmin { return Grant(Some(Admin), false); }
    }
    if |p.userGroups| > 0 {
      var asUser := AnyGroupMatch(groups, p.userGroups);
      if asUser { return Grant(Some(Member), false); }
    }
    match ToLower(TrimSpace(p.defaultRole))
    case "admin" => return Grant(Some(Admin), false);
    case "user" => return Grant(Some(Member), false);
    case _ => return Grant(None, false);
  }

  // ---- What holds of the mapping ----

  /** A role that a rule grants, as opposed to the one everybody gets. */
  predicate Explicit(p: Provider, c: Claims, groups: seq<string>) {
    EmailOf(c) in p.adminEmails || InGroups(groups, p.adminGroups) || InGroups(groups, p.userGroups)
  }

  /** Whoever a rule gives a role is never turned away: naming an admin or a group needs nothing else. */
  lemma GrantedIsAdmitted(p: Provider, c: Claims)
    requires p.requireVerified ==> c.verified
    requires Explicit(p, c, GroupsOf(c, p.groupsClaim))
    ensures Admitted(p, c)
    ensures GrantOf(p, c, GroupsOf(c, p.groupsClaim)).role.Some?
  {
  }

  function Lowered(groups: seq<string>): set<string> {
    set i | 0 <= i < |groups| :: ToLower(groups[i])
  }

  lemma InGroupsIs(groups: seq<string>, want: seq<string>)
    ensures InGroups(groups, want) <==> exists g :: g in Lowered(groups) && g in want
  {
    if InGroups(groups, want) {
      var i :| 0 <= i < |groups| && ToLower(groups[i]) in want;
      assert ToLower(groups[i]) in Lowered(groups);
    }
  }

  /** Order, repetition and letter case of the groups make no difference to anything. */
  lemma OnlyTheSetCounts(p: Provider, c: Claims, c': Claims)
    requires c' == c.(raw := c'.raw)
    requires Lowered(GroupsOf(c, p.groupsClaim)) == Lowered(GroupsOf(c', p.groupsClaim))
    ensures Admitted(p, c) <==> Admitted(p, c')
    ensures GrantOf(p, c, GroupsOf(c, p.groupsClaim)) == GrantOf(p, c', GroupsOf(c', p.groupsClaim))
  {
    InGroupsIs(GroupsOf(c, p.groupsClaim), p.adminGroups);
    InGroupsIs(GroupsOf(c', p.groupsClaim), p.adminGroups);
    InGroupsIs(GroupsOf(c, p.groupsClaim), p.userGroups);
    InGroupsIs(GroupsOf(c', p.groupsClaim), p.userGroups);
  }

  function Rank(role: Option<Role>): nat {
    match role case None => 0 case Some(Member) => 1 case Some(Admin) => 2
  }

  /**
   More groups lower a role in one case only: the default made an admin of everybody whom no rule names, and now a
   rule names this one as a user. With any other default they never do.
   */
  lemma MoreGroups(p: Provider, c: Claims, groups: seq<string>, more: seq<string>)
    requires Lowered(groups) <= Lowered(more)
    ensures Rank(GrantOf(p, c, more).role) < Rank(GrantOf(p, c, groups).role) <==>
      DefaultRole(p) == Some(Admin) && !Explicit(p, c, groups) && InGroups(more, p.userGroups) && !InGroups(more, p.adminGroups)
  {
    InGroupsIs(groups, p.adminGroups);
    InGroupsIs(more, p.adminGroups);
    InGroupsIs(groups, p.userGroups);
    InGroupsIs(more, p.userGroups);
  }

  // ---- Configuration ----

  /** The part of validation that the mapping rests on: known default role, a claim where groups are listed, lists in lower case. */
  function Validated(p: Provider): Result<Provider> {
    var role := ToLower(TrimSpace(p.defaultRole));
    if (p.adminGroups != [] || p.userGroups != []) && TrimSpace(p.groupsClaim) == "" then Err("groups but no groups_claim")
    else if role !in {"", "none", "admin", "user"} then Err("default_role invalid")
    else Ok(Provider(p.requireVerified, LowerTrimmed(p.allowedEmails), LowerTrimmed(p.allowedDomains), LowerTrimmed(p.adminEmails),
                     LowerTrimmed(p.adminGroups), LowerTrimmed(p.userGroups), TrimSpace(p.groupsClaim), role))
  }

  lemma {:induction false} LowerTrimmedIs(list: seq<string>, s: string)
    ensures s in LowerTrimmed(list) <==> s != "" && exists i :: 0 <= i < |list| && ToLower(TrimSpace(list[i])) == s
  {
    if list != [] {
      var n := |list| - 1;
      LowerTrimmedIs(list[..n], s);
      assert forall i :: 0 <= i < n ==> list[..n][i] == list[i];
    }
  }

  /** In the order of the list. */
  lemma {:induction false} LowerTrimmedInOrder(before: seq<string>, after: seq<string>)
    ensures LowerTrimmed(before + after) == LowerTrimmed(before) + LowerTrimmed(after)
  {
    if after == [] {
      assert before + after == before;
    } else {
      var n := |after| - 1;
      LowerTrimmedInOrder(before, after[..n]);
      assert (before + after)[..|before + after| - 1] == before + after[..n];
    }
  }

  lemma {:induction false} LowerTrimmedTwice(list: seq<string>)
    ensures LowerTrimmed(LowerTrimmed(list)) == LowerTrimmed(list)
  {
    if list != [] {
      var n := |list| - 1;
      var s, head := ToLower(TrimSpace(list[n])), LowerTrimmed(list[..n]);
      LowerTrimmedTwice(list[..n]);
      if s == "" {
        assert LowerTrimmed(list) == head;
      } else {
        NormalizeTwice(list[n]);
        assert ToLower(TrimSpace(s)) == s;
        assert (head + [s])[..|head|] == head;
      }
    }
  }

  /** What validation refuses, and what each list holds after it. */
  lemma ValidatedIs(p: Provider, s: string)
    ensures Validated(p).Ok? <==>
      && (p.adminGroups == p.userGroups == [] || TrimSpace(p.groupsClaim) != "")
      && (ToLower(TrimSpace(p.defaultRole)) == "" || ToLower(TrimSpace(p.defaultRole)) == "none"
          || ToLower(TrimSpace(p.defaultRole)) == "admin" || ToLower(TrimSpace(p.defaultRole)) == "user")
    ensures Validated(p).Ok? ==> var q := Validated(p).value;
      && (s in q.allowedEmails <==> Named(p.allowedEmails, s)) && (s in q.allowedDomains <==> Named(p.allowedDomains, s))
      && (s in q.adminEmails <==> Named(p.adminEmails, s)) && (s in q.adminGroups <==> Named(p.adminGroups, s))
      && (s in q.userGroups <==> Named(p.userGroups, s)) && q.requireVerified == p.requireVerified && q.groupsClaim == TrimSpace(p.groupsClaim)
  {
    LowerTrimmedIs(p.allowedEmails, s);
    LowerTrimmedIs(p.allowedDomains, s);
    LowerTrimmedIs(p.adminEmails, s);
    LowerTrimmedIs(p.adminGroups, s);
    LowerTrimmedIs(p.userGroups, s);
    hide LowerTrimmed, ToLower, TrimSpace;
  }

  /** The list has an entry that is this text, but for case and surrounding blanks. */
  predicate Named(list: seq<string>, s: string) {
    s != "" && exists i :: 0 <= i < |list| && ToLower(TrimSpace(list[i])) == s
  }

  /** Validation normalizes once and for all: what it lets pass, it lets pass again unchanged. */
  lemma ValidatedTwice(p: Provider)
    requires Validated(p).Ok?
    ensures Validated(Validated(p).value) == Validated(p)
  {
    var q := Validated(p).value;
    LowerTrimmedTwice(p.allowedEmails);
    LowerTrimmedTwice(p.allowedDomains);
    LowerTrimmedTwice(p.adminEmails);
    LowerTrimmedTwice(p.adminGroups);
    LowerTrimmedTwice(p.userGroups);
    NormalizeTwice(p.defaultRole);
    TrimSpaceTrims(p.groupsClaim);
    TrimSpaceTrims(TrimSpace(p.groupsClaim));
  }

  /** Lower case before or after trimming: the address matched against the lists is the key of the record. */
  lemma EmailIsKey(c: Claims)
    ensures EmailOf(c) == Normalize(c.email)
  {
    LowerLeft(c.email);
    LowerRight(TrimLeft(c.email));
  }

  lemma {:induction false} LowerLeft(s: string)
    ensures TrimLeft(ToLower(s)) == ToLower(TrimLeft(s))
  {
    if s != "" && IsBlank(s[0]) {
      LowerLeft(s[1..]);
      assert ToLower(s)[1..] == ToLower(s[1..]);
    }
  }

  lemma {:induction false} LowerRight(s: string)
    ensures TrimRight(ToLower(s)) == ToLower(TrimRight(s))
  {
    if s != "" && IsBlank(s[|s| - 1]) {
      LowerRight(s[..|s| - 1]);
      assert ToLower(s)[..|s| - 1] == ToLower(s[..|s| - 1]);
    }
  }

  /** With a validated configuration the spelling of an administrator's address does not matter, in the list or in the token. */
  lemma AdminBySpelling(p: Provider, c: Claims, groups: seq<string>)
    requires Validated(p).Ok? && Normalize(c.email) != ""
    ensures GrantOf(Validated(p).value, c, groups).pinned <==>
      exists i :: 0 <= i < |p.adminEmails| && Normalize(p.adminEmails[i]) == Normalize(c.email)
  {
    EmailIsKey(c);
    LowerTrimmedIs(p.adminEmails, Normalize(c.email));
  }

  // ---- Signing on ----

  /** What an admitted sign-on asks of the user store. */
  function SignOn(p: Provider, c: Claims, at: Time): Job {
    var g := GrantOf(p, c, GroupsOf(c, p.groupsClaim));
    Provision(c.email, c.subject, c.name, g.role, g.pinned, at)
  }

  /**
   A user whom a rule gives a role gets in, unless he is disabled, and as exactly that; only who is pinned is
   an admin whatever the groups say.
   */
  lemma SignsOnAsGranted(w: World, p: Provider, c: Claims, at: Time, f: Findings)
    requires Explicit(p, c, GroupsOf(c, p.groupsClaim)) && f.found.Ok?
    requires f.found.value.Some? ==> f.found.value.value.enabled
    ensures var plan := PlanFor(w, SignOn(p, c, at), f);
      && plan.Ok? && |plan.value| == 1 && plan.value[0].Put?
      && var u := plan.value[0].user;
         && u.enabled && u.subject == c.subject && u.lastLoginAt == at && (c.name != "" ==> u.name == c.name)
         && (f.found.value.None? ==> u.email == Normalize(c.email))
         && (f.found.value.Some? && f.found.value.value.pinned ==> u.role == Admin && u.pinned)
         && (!(f.found.value.Some? && f.found.value.value.pinned) ==>
               Some(u.role) == GrantOf(p, c, GroupsOf(c, p.groupsClaim)).role
               && u.pinned == (EmailOf(c) in p.adminEmails))
  {
    GrantedRole(p, c);
    hide InGroups, EmailOf, GroupsOf;
  }

  lemma GrantedRole(p: Provider, c: Claims)
    requires Explicit(p, c, GroupsOf(c, p.groupsClaim))
    ensures GrantOf(p, c, GroupsOf(c, p.groupsClaim)).role.Some?
    ensures EmailOf(c) in p.adminEmails ==> GrantOf(p, c, GroupsOf(c, p.groupsClaim)) == Grant(Some(Admin), true)
  {
  }
}
