/** The open incident as a reader sees it, and why the read and the repair never
    disagree. */
module Incident {
  import opened Basics
  import opened Json
  import opened Compiled
  import opened State
  import opened Step

  // ---- the walk outward

  function Enclosing(scopes: map<ScopeId, Scope>, scope: ScopeId): seq<(TokenId, NodeIx)>
    decreases scope
  {
    if scope in scopes && scopes[scope].parent < scope
    then [(scopes[scope].token, scopes[scope].element)] + Enclosing(scopes, scopes[scope].parent)
    else []
  }

  function OutwardFrom(scopes: map<ScopeId, Scope>, host: NodeIx, token: TokenId, scope: ScopeId): seq<(TokenId, NodeIx)> {
    [(token, host)] + Enclosing(scopes, scope)
  }

  function FirstCatching(p: Process, hosts: seq<(TokenId, NodeIx)>, code: Option<string>): Option<(TokenId, NodeIx)> {
    if hosts == [] then None
    else if p.ErrorBoundary(hosts[0].1, code).Some? then Some((hosts[0].0, p.ErrorBoundary(hosts[0].1, code).value))
    else FirstCatching(p, hosts[1..], code)
  }

  /** The nearest host that catches at all wins: a nearer catch-all beats a
      farther exact code. */
  lemma {:induction false} CatcherIs(p: Process, scopes: map<ScopeId, Scope>, host: NodeIx, token: TokenId, scope: ScopeId, code: Option<string>)
    ensures Catcher(p, scopes, host, token, scope, code) == FirstCatching(p, OutwardFrom(scopes, host, token, scope), code)
    decreases scope
  {
    var hosts := OutwardFrom(scopes, host, token, scope);
    assert hosts[1..] == Enclosing(scopes, scope);
    if scope !in scopes || scopes[scope].parent >= scope {
    } else {
      var up := scopes[scope];
      CatcherIs(p, scopes, up.element, up.token, up.parent, code);
      assert Enclosing(scopes, scope) == OutwardFrom(scopes, up.element, up.token, up.parent);
    }
  }

  /** A catch-all nearer than any host that catches `code` takes it, however exact
      the boundary further out. */
  lemma {:induction false} NearerCatchAllWins(p: Process, near: seq<(TokenId, NodeIx)>, host: (TokenId, NodeIx), far: seq<(TokenId, NodeIx)>, code: Option<string>)
    requires forall h :: h in near ==> p.ErrorBoundary(h.1, code).None?
    requires FirstFor(p.ErrorBoundaries(host.1), None).Some?
    ensures var caught := FirstCatching(p, near + [host] + far, code);
            caught.Some? && caught.value.0 == host.0 && p.ErrorBoundary(host.1, code) == Some(caught.value.1)
    decreases |near|
  {
    var all := near + [host] + far;
    if near == [] {
      assert all[0] == host;
    } else {
      assert all[1..] == near[1..] + [host] + far;
      NearerCatchAllWins(p, near[1..], host, far, code);
    }
  }

  // ---- which boundary of a host

  /** Entry `i` takes the code: it names it, or is codeless where none does; and no
      entry before it would. */
  predicate TakesAt(entries: seq<(Option<string>, NodeIx)>, i: nat, code: Option<string>, b: NodeIx) {
    && i < |entries| && entries[i].1 == b
    && (entries[i].0 == code || (entries[i].0.None? && forall e :: e in entries ==> e.0 != code))
    && (forall j :: 0 <= j < i ==> entries[j].0 != entries[i].0)
  }

  ghost predicate Catches(p: Process, host: NodeIx, code: Option<string>, b: NodeIx) {
    exists i: nat :: TakesAt(p.ErrorBoundaries(host), i, code, b)
  }

  predicate CatchesNothing(p: Process, host: NodeIx, code: Option<string>) {
    forall e :: e in p.ErrorBoundaries(host) ==> e.0 != code && e.0.Some?
  }

  lemma {:induction false} FirstForIs(candidates: seq<(Option<string>, NodeIx)>, code: Option<string>) returns (i: nat)
    ensures match FirstFor(candidates, code)
            case Some(b) => i < |candidates| && candidates[i] == (code, b) && forall j :: 0 <= j < i ==> candidates[j].0 != code
            case None => forall e :: e in candidates ==> e.0 != code
  {
    if candidates == [] || candidates[0].0 == code {
      i := 0;
    } else {
      i := FirstForIs(candidates[1..], code);
      NoneFor(candidates, code);
      i := i + 1;
    }
  }

  /** An exact code before a catch-all, the first entry before a later one; nothing
      is caught exactly when no entry names the code and none is codeless. */
  lemma CaughtBy(p: Process, host: NodeIx, code: Option<string>)
    ensures match p.ErrorBoundary(host, code)
            case Some(b) => Catches(p, host, code, b)
            case None => CatchesNothing(p, host, code)
  {
    var entries := p.ErrorBoundaries(host);
    var i := FirstForIs(entries, code);
    var j := FirstForIs(entries, None);
    match p.ErrorBoundary(host, code)
    case Some(b) => assert TakesAt(entries, if code.Some? && FirstFor(entries, code).Some? then i else j, code, b);
    case None =>
  }

  /** Boundary `b` of the `i`th host takes the code, and no host before it would. */
  ghost predicate Lands(p: Process, hosts: seq<(TokenId, NodeIx)>, code: Option<string>, i: int, b: NodeIx) {
    0 <= i < |hosts| && Catches(p, hosts[i].1, code, b) && forall j :: 0 <= j < i ==> CatchesNothing(p, hosts[j].1, code)
  }

  /** Who catches is the nearest host with an entry that takes the code; nobody does
      when no host on the walk has one. */
  lemma Nearest(p: Process, scopes: map<ScopeId, Scope>, host: NodeIx, token: TokenId, scope: ScopeId, code: Option<string>) returns (i: nat)
    ensures var hosts := OutwardFrom(scopes, host, token, scope);
            match Catcher(p, scopes, host, token, scope, code)
            case Some(who) => Lands(p, hosts, code, i, who.1) && hosts[i].0 == who.0
            case None => forall h :: h in hosts ==> CatchesNothing(p, h.1, code)
  {
    CatcherIs(p, scopes, host, token, scope, code);
    i := FirstCatchingIs(p, OutwardFrom(scopes, host, token, scope), code);
  }

  lemma {:induction false} FirstCatchingIs(p: Process, hosts: seq<(TokenId, NodeIx)>, code: Option<string>) returns (i: nat)
    ensures match FirstCatching(p, hosts, code)
            case Some(who) =>
              && i < |hosts| && hosts[i].0 == who.0 && Catches(p, hosts[i].1, code, who.1)
              && forall j :: 0 <= j < i ==> CatchesNothing(p, hosts[j].1, code)
            case None => forall h :: h in hosts ==> CatchesNothing(p, h.1, code)
    decreases |hosts|
  {
    i := 0;
    if hosts != [] {
      CaughtBy(p, hosts[0].1, code);
      hide Catches, CatchesNothing, Process.ErrorBoundary;
      if p.ErrorBoundary(hosts[0].1, code).None? {
        i := FirstCatchingIs(p, hosts[1..], code);
        assert forall h :: h in hosts ==> h == hosts[0] || h in hosts[1..];
        i := i + 1;
        assert forall j :: 0 < j < |hosts| ==> hosts[j] == hosts[1..][j - 1];
      }
    }
  }

  // ---- the codes a divert can send

  /** The codes the boundaries of a host declare, after those already known. */
  function WithCodes(known: seq<Option<string>>, boundaries: seq<(Option<string>, NodeIx)>): (r: seq<Option<string>>)
    decreases |boundaries|
  {
    if boundaries == [] then known
    else
      var code := boundaries[0].0;
      WithCodes(if code.Some? && code !in known then known + [code] else known, boundaries[1..])
  }

  function WalkCodes(p: Process, known: seq<Option<string>>, hosts: seq<(TokenId, NodeIx)>): seq<Option<string>>
    decreases |hosts|
  {
    if hosts == [] then known else WalkCodes(p, WithCodes(known, p.ErrorBoundaries(hosts[0].1)), hosts[1..])
  }

  /** The codeless divert first, then every code declared on the walk, innermost
      host first. */
  function Candidates(p: Process, hosts: seq<(TokenId, NodeIx)>): seq<Option<string>> { WalkCodes(p, [None], hosts) }

  /** Where a code is caught, and the subprocess torn down on the way when that is
      not on the failing activity itself. */
  datatype CaughtCode = CaughtCode(code: Option<string>, caughtAt: NodeIx, tearsDown: Option<NodeIx>)

  function LevelOf(hosts: seq<(TokenId, NodeIx)>, token: TokenId): nat {
    if hosts == [] || hosts[0].0 == token then 0 else 1 + LevelOf(hosts[1..], token)
  }

  function Caught(p: Process, hosts: seq<(TokenId, NodeIx)>, code: Option<string>): Option<CaughtCode> {
    match FirstCatching(p, hosts, code)
    case None => None
    case Some(taker) =>
      var level := LevelOf(hosts, taker.0);
      Some(CaughtCode(code, taker.1, if 0 < level < |hosts| then Some(hosts[level].1) else None))
  }

  function Landing(p: Process, hosts: seq<(TokenId, NodeIx)>, codes: seq<Option<string>>): seq<CaughtCode>
    decreases |codes|
  {
    if codes == [] then []
    else
      var rest := Landing(p, hosts, codes[1..]);
      var c := Caught(p, hosts, codes[0]);
      if c.Some? then [c.value] + rest else rest
  }

  function LandingCodes(p: Process, hosts: seq<(TokenId, NodeIx)>): seq<CaughtCode> {
    Landing(p, hosts, Candidates(p, hosts))
  }

  lemma {:induction false} WithCodesIs(known: seq<Option<string>>, boundaries: seq<(Option<string>, NodeIx)>)
    requires NoRepeats(known)
    ensures var r := WithCodes(known, boundaries);
            && NoRepeats(r)
            && (forall c :: c in r <==> c in known || (c.Some? && exists e :: e in boundaries && e.0 == c))
    decreases |boundaries|
  {
    if boundaries == [] {
    } else {
      var code := boundaries[0].0;
      WithCodesIs(if code.Some? && code !in known then known + [code] else known, boundaries[1..]);
    }
  }

  ghost predicate Declares(p: Process, hosts: seq<(TokenId, NodeIx)>, code: Option<string>) {
    code.Some? && exists h :: h in hosts && exists e :: e in p.ErrorBoundaries(h.1) && e.0 == code
  }

  lemma {:induction false} WalkCodesIs(p: Process, known: seq<Option<string>>, hosts: seq<(TokenId, NodeIx)>)
    requires NoRepeats(known)
    ensures var r := WalkCodes(p, known, hosts);
            && NoRepeats(r)
            && (forall c :: c in r <==> c in known || Declares(p, hosts, c))
    decreases |hosts|
  {
    if hosts == [] {
    } else {
      WithCodesIs(known, p.ErrorBoundaries(hosts[0].1));
      WalkCodesIs(p, WithCodes(known, p.ErrorBoundaries(hosts[0].1)), hosts[1..]);
      forall c ensures Declares(p, hosts, c) <==>
        Declares(p, hosts[1..], c) || (c.Some? && exists e :: e in p.ErrorBoundaries(hosts[0].1) && e.0 == c)
      {
        assert forall h :: h in hosts <==> h == hosts[0] || h in hosts[1..];
      }
    }
  }

  lemma {:induction false} NoneFor(candidates: seq<(Option<string>, NodeIx)>, code: Option<string>)
    ensures FirstFor(candidates, code).None? <==> forall e :: e in candidates ==> e.0 != code
  {
    if candidates == [] {
    } else {
      NoneFor(candidates[1..], code);
      assert forall e :: e in candidates <==> e == candidates[0] || e in candidates[1..];
    }
  }

  /** A code nothing on the walk declares meets catch-alls only. */
  lemma {:induction false} UndeclaredIsCodeless(p: Process, hosts: seq<(TokenId, NodeIx)>, code: Option<string>)
    requires !Declares(p, hosts, code)
    ensures FirstCatching(p, hosts, code) == FirstCatching(p, hosts, None)
    decreases |hosts|
  {
    if hosts == [] {
    } else {
      assert hosts[0] in hosts;
      if code.Some? {
        NoneFor(p.ErrorBoundaries(hosts[0].1), code);
      }
      forall h | h in hosts[1..] ensures h in hosts {
      }
      UndeclaredIsCodeless(p, hosts[1..], code);
    }
  }

  lemma {:induction false} LandingIs(p: Process, hosts: seq<(TokenId, NodeIx)>, codes: seq<Option<string>>)
    ensures forall c :: c in Landing(p, hosts, codes) <==> c.code in codes && Caught(p, hosts, c.code) == Some(c)
    decreases |codes|
  {
    if codes == [] {
    } else {
      LandingIs(p, hosts, codes[1..]);
      assert forall c :: c in codes <==> c == codes[0] || c in codes[1..];
    }
  }

  /** A code lands exactly when the list names it or has a codeless entry, and
      where that entry says. */
  lemma CodesLand(p: Process, hosts: seq<(TokenId, NodeIx)>, code: Option<string>)
    ensures var codes := LandingCodes(p, hosts);
            && (FirstCatching(p, hosts, code).Some? <==> exists c :: c in codes && (c.code == code || c.code.None?))
            && (forall c :: c in codes && c.code == code ==> FirstCatching(p, hosts, code).Some? && FirstCatching(p, hosts, code).value.1 == c.caughtAt)
            && (forall c :: c in codes && c.code.None? && (forall d :: d in codes ==> d.code != code) ==>
                  FirstCatching(p, hosts, code).Some? && FirstCatching(p, hosts, code).value.1 == c.caughtAt)
  {
    var codes := LandingCodes(p, hosts);
    WalkCodesIs(p, [None], hosts);
    LandingIs(p, hosts, Candidates(p, hosts));
    CodelessLands(p, hosts, code);
    hide Candidates, Landing;
    if code !in Candidates(p, hosts) {
      UndeclaredIsCodeless(p, hosts, code);
    }
    var c := if code in Candidates(p, hosts) then code else None;
    if FirstCatching(p, hosts, code).Some? {
      assert Caught(p, hosts, c).Some? && Caught(p, hosts, c).value in codes;
    }
  }

  /** What a codeless error meets, any code meets there or nearer. */
  lemma {:induction false} CodelessLands(p: Process, hosts: seq<(TokenId, NodeIx)>, code: Option<string>)
    ensures FirstCatching(p, hosts, None).Some? ==> FirstCatching(p, hosts, code).Some?
    decreases |hosts|
  {
    if hosts == [] {
    } else {
      CodelessLands(p, hosts[1..], code);
    }
  }

  lemma {:induction false} LevelIs(hosts: seq<(TokenId, NodeIx)>, i: nat)
    requires i < |hosts| && forall j, k :: 0 <= j < k < |hosts| ==> hosts[j].0 != hosts[k].0
    ensures LevelOf(hosts, hosts[i].0) == i
    decreases |hosts|
  {
    if i > 0 {
      assert hosts[1..][i - 1] == hosts[i];
      LevelIs(hosts[1..], i - 1);
    }
  }

  /** An entry says which boundary takes its code, at the nearest host that can, and
      names that host as torn down unless it is the failing one. */
  lemma EntrySays(p: Process, hosts: seq<(TokenId, NodeIx)>, c: CaughtCode) returns (i: nat)
    requires c in LandingCodes(p, hosts) && forall j, k :: 0 <= j < k < |hosts| ==> hosts[j].0 != hosts[k].0
    ensures i < |hosts| && Catches(p, hosts[i].1, c.code, c.caughtAt)
    ensures forall j :: 0 <= j < i ==> CatchesNothing(p, hosts[j].1, c.code)
    ensures c.tearsDown == if i == 0 then None else Some(hosts[i].1)
  {
    LandingIs(p, hosts, Candidates(p, hosts));
    i := FirstCatchingIs(p, hosts, c.code);
    LevelIs(hosts, i);
    hide Candidates, Landing, Catches, CatchesNothing, FirstCatching, LevelOf;
  }

  /** No code twice, and only the first entry codeless, if any is. */
  predicate CodelessFirst(codes: seq<CaughtCode>) {
    forall i, j :: 0 <= i < j < |codes| ==> codes[i].code != codes[j].code && codes[j].code.Some?
  }

  lemma {:induction false} LandingInOrder(p: Process, hosts: seq<(TokenId, NodeIx)>, codes: seq<Option<string>>)
    requires NoRepeats(codes) && forall i :: 0 < i < |codes| ==> codes[i].Some?
    ensures CodelessFirst(Landing(p, hosts, codes))
    decreases |codes|
  {
    if codes != [] {
      LandingInOrder(p, hosts, codes[1..]);
      LandingIs(p, hosts, codes[1..]);
      hide Caught;
      var rest := Landing(p, hosts, codes[1..]);
      forall j | 0 <= j < |rest| ensures rest[j].code != codes[0] && rest[j].code.Some? {
        assert rest[j] in rest;
        var i :| 0 <= i < |codes[1..]| && codes[1..][i] == rest[j].code;
        assert codes[i + 1] == rest[j].code;
      }
    }
  }

  lemma {:induction false} KnownFirst(p: Process, known: seq<Option<string>>, boundaries: seq<(Option<string>, NodeIx)>)
    ensures known <= WithCodes(known, boundaries)
    ensures forall i :: |known| <= i < |WithCodes(known, boundaries)| ==> WithCodes(known, boundaries)[i].Some?
    decreases |boundaries|
  {
    if boundaries != [] {
      var code := boundaries[0].0;
      KnownFirst(p, if code.Some? && code !in known then known + [code] else known, boundaries[1..]);
    }
  }

  lemma {:induction false} WalkedFirst(p: Process, known: seq<Option<string>>, hosts: seq<(TokenId, NodeIx)>)
    ensures known <= WalkCodes(p, known, hosts)
    ensures forall i :: |known| <= i < |WalkCodes(p, known, hosts)| ==> WalkCodes(p, known, hosts)[i].Some?
    decreases |hosts|
  {
    if hosts != [] {
      KnownFirst(p, known, p.ErrorBoundaries(hosts[0].1));
      WalkedFirst(p, WithCodes(known, p.ErrorBoundaries(hosts[0].1)), hosts[1..]);
    }
  }

  lemma EntriesInOrder(p: Process, hosts: seq<(TokenId, NodeIx)>)
    ensures CodelessFirst(LandingCodes(p, hosts))
  {
    WalkedFirst(p, [None], hosts);
    WalkCodesIs(p, [None], hosts);
    LandingInOrder(p, hosts, Candidates(p, hosts));
  }

  // ---- the read

  datatype Takes = TakesNothing | TakesPatch | TakesAnswer | TakesCode

  datatype RepairOption = RepairOption(disposition: RepairKind, takes: Takes, codes: seq<CaughtCode>, refused: Option<Refusal>)

  datatype IncidentView = IncidentView(incident: nat, element: NodeIx, resume: NodeIx, halted: nat, options: seq<RepairOption>)

  function ReadRefusal(p: Process, s: Instance, cause: TokenId, codes: seq<CaughtCode>, kind: RepairKind): Option<Refusal>
    requires cause in s.tokens
  {
    var resume := p.ResumePoint(s.tokens[cause].node);
    if kind.AbandonInstanceKind? then None
    else if |Causes(s)| > 1 then Some(CauseUnknown)
    else match kind
      case AdvanceKind => if p.KindOf(resume).EventBasedGateway? then Some(GatewayHasNoSingleWayOn) else None
      case DivertKind => if codes == [] then Some(NothingCatches) else None
      case AbandonKind => if StrandsAJoin(p, s, cause, s.tokens[cause].scope, resume) then Some(AJoinWouldWait) else None
      case _ => None
  }

  function TakesOf(p: Process, resume: NodeIx, kind: RepairKind): Takes {
    match kind
    case RetryKind => TakesPatch
    case AdvanceKind => if p.KindOf(resume).BusinessRule? then TakesAnswer else TakesPatch
    case DivertKind => TakesCode
    case AbandonKind => TakesNothing
    case AbandonInstanceKind => TakesNothing
  }

  const KINDS := [RetryKind, AdvanceKind, DivertKind, AbandonKind, AbandonInstanceKind]

  function OptionFor(p: Process, s: Instance, cause: TokenId, codes: seq<CaughtCode>, kind: RepairKind): RepairOption
    requires cause in s.tokens
  {
    var refused := ReadRefusal(p, s, cause, codes, kind);
    RepairOption(kind, TakesOf(p, p.ResumePoint(s.tokens[cause].node), kind),
                 if kind.DivertKind? && refused.None? then codes else [], refused)
  }

  function WalkFrom(p: Process, s: Instance, cause: TokenId): seq<(TokenId, NodeIx)>
    requires cause in s.tokens
  {
    OutwardFrom(s.scopes, p.ResumePoint(s.tokens[cause].node), cause, s.tokens[cause].scope)
  }

  function ReadIncident(p: Process, s: Instance): Option<IncidentView> {
    if s.OpenIncident().None? || Causes(s) == {} then None
    else
      var cause := CauseOf(s);
      assert cause in Sorted(Causes(s));
      var codes := LandingCodes(p, WalkFrom(p, s, cause));
      Some(IncidentView(s.OpenIncident().value, s.tokens[cause].node, p.ResumePoint(s.tokens[cause].node),
                        |set t | t in s.tokens && s.tokens[t].wait.Halted?|,
                        seq(|KINDS|, i requires 0 <= i < |KINDS| => OptionFor(p, s, cause, codes, KINDS[i]))))
  }

  /** The disposition carries what its option says it takes. */
  predicate Carries(d: Disposition, takes: Takes) {
    match d
    case AdvancePast(patch, answer) => if takes.TakesAnswer? then answer.Some? && patch == EMPTY else answer.None?
    case _ => true
  }

  /** A read that could disagree with the verb would be worse than none: with the
      open number, a reason and what the option takes, a repair is refused exactly
      as the option says; a divert, when the list does not land its code. */
  lemma ReadAgreesWithRepair(p: Process, s: Instance, d: Disposition, why: string, i: nat)
    requires ReadIncident(p, s).Some? && !Blank(why) && i < |KINDS| && KINDS[i] == d.Kind()
    requires Carries(d, ReadIncident(p, s).value.options[i].takes)
    ensures var view := ReadIncident(p, s).value;
            var option := view.options[i];
            var refusal := RepairRefusal(p, s, view.incident, d, why);
            && option.disposition == d.Kind()
            && (option.refused.Some? ==> refusal == Some(RepairRefused(option.refused.value)))
            && (option.refused.None? && !d.Divert? ==> refusal.None?)
            && (option.refused.None? && d.Divert? ==>
                  (refusal.None? <==> exists c :: c in option.codes && (c.code == d.code || c.code.None?))
                  && (refusal.Some? ==> refusal == Some(RepairRefused(NothingCatches))))
  {
    var cause := CauseOf(s);
    assert cause in Sorted(Causes(s));
    hide Causes, StrandsAJoin, Blank, LandingCodes, OutwardFrom;
    if d.Divert? {
      var hosts := WalkFrom(p, s, cause);
      CatcherIs(p, s.scopes, p.ResumePoint(s.tokens[cause].node), cause, s.tokens[cause].scope, d.code);
      CodesLand(p, hosts, d.code);
    }
  }

  predicate Offers(option: RepairOption, kind: RepairKind, takes: Takes, codes: seq<CaughtCode>) {
    option.disposition == kind && option.takes == takes && option.codes == codes
  }

  /** What the read shows: the number a repair must name, where it failed, where a
      repair re-enters, how many tokens the freeze halted; and five options, each with
      what it takes, the codes under a divert that is open and nowhere else. */
  lemma ReadShows(p: Process, s: Instance)
    requires s.status.Failed? && s.nextIncident > 0 && Causes(s) != {}
    ensures match ReadIncident(p, s)
            case None => false
            case Some(view) =>
              var cause := CauseOf(s);
              && view.incident + 1 == s.nextIncident
              && cause in s.tokens && view.element == s.TokenAt(cause).node && view.resume == p.ResumePoint(view.element)
              && view.halted == |set t | t in s.tokens && s.tokens[t].wait.Halted?|
              && var decides := p.KindOf(view.resume).BusinessRule?;
                 var codes := LandingCodes(p, OutwardFrom(s.scopes, view.resume, cause, s.TokenAt(cause).scope));
                 var options := view.options;
                 && |options| == 5
                 && Offers(options[0], RetryKind, TakesPatch, []) && Offers(options[1], AdvanceKind, if decides then TakesAnswer else TakesPatch, [])
                 && Offers(options[2], DivertKind, TakesCode, if options[2].refused.None? then codes else [])
                 && Offers(options[3], AbandonKind, TakesNothing, []) && Offers(options[4], AbandonInstanceKind, TakesNothing, [])
  {
    hide LandingCodes, Sorted, OutwardFrom, ReadRefusal, Offers, Causes, OptionFor, Process.ResumePoint;
    var cause := CauseOf(s);
    assert cause in Sorted(Causes(s));
    CausesThere(s);
    var codes := LandingCodes(p, WalkFrom(p, s, cause));
    forall kind ensures Offers(OptionFor(p, s, cause, codes, kind), kind, TakesOf(p, p.ResumePoint(s.TokenAt(cause).node), kind),
                               if kind.DivertKind? && OptionFor(p, s, cause, codes, kind).refused.None? then codes else [])
    {
      OffersAs(p, s, cause, codes, kind);
    }
  }

  lemma CausesThere(s: Instance)
    ensures forall t :: t in Causes(s) ==> t in s.tokens
  {
  }

  lemma OffersAs(p: Process, s: Instance, cause: TokenId, codes: seq<CaughtCode>, kind: RepairKind)
    requires cause in s.tokens
    ensures var option := OptionFor(p, s, cause, codes, kind);
            Offers(option, kind, TakesOf(p, p.ResumePoint(s.TokenAt(cause).node), kind), if kind.DivertKind? && option.refused.None? then codes else [])
  {
    hide ReadRefusal, TakesOf;
  }
}
