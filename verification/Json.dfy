/** The variable document and the two writes the engine makes to it: RFC 7386
    merge patch, and replacement at a bound path. */
module Json {
  import opened Basics

  datatype Value =
    | Null
    | Bool(b: bool)
    | Int(i: int)
    | Decimal(r: real)
    | Str(s: string)
    | List(items: seq<Value>)
    | Obj(members: map<string, Value>)

  const EMPTY := Obj(map[])

  /** The members a write descends into: a non-object is replaced by `{}` first. */
  function Members(v: Value): map<string, Value> {
    if v.Obj? then v.members else map[]
  }

  /** What stands at member `k`; an absent one reads as null. */
  function Member(v: Value, k: string): Value {
    if v.Obj? && k in v.members then v.members[k] else Null
  }

  // ---- reading a qualified name

  function Lookup(v: Value, path: seq<string>): Option<Value>
    decreases |path|
  {
    if path == [] then Some(v)
    else if v.Obj? && path[0] in v.members then Lookup(v.members[path[0]], path[1..])
    else None
  }

  /** A missing segment resolves to null. */
  function Resolve(v: Value, path: seq<string>): Value {
    var found := Lookup(v, path);
    if found.Some? then found.value else Null
  }

  // ---- merge patch

  /** RFC 7386 section 2 without an order of evaluation: the members of the
      result, each given on its own. */
  function Merge(target: Value, patch: Value): Value
    decreases patch
  {
    match patch
    case Obj(p) =>
      var t := Members(target);
      Obj(map k | k in t.Keys + p.Keys && !(k in p && p[k].Null?) ::
        if k in p then Merge(if k in t then t[k] else Null, p[k]) else t[k])
    case _ => patch
  }

  /** What an object patch has made of `t` once the entries in `taken` are taken. */
  function Taken(t: map<string, Value>, p: map<string, Value>, taken: set<string>): map<string, Value>
    requires taken <= p.Keys
  {
    map k | k in t.Keys + taken && !(k in taken && p[k].Null?) ::
      if k in taken then Merge(if k in t then t[k] else Null, p[k]) else t[k]
  }

  lemma TakeOne(t: map<string, Value>, p: map<string, Value>, taken: set<string>, key: string)
    requires taken <= p.Keys && key in p.Keys - taken
    ensures key in Taken(t, p, taken) <==> key in t
    ensures key in t ==> Taken(t, p, taken)[key] == t[key]
    ensures p[key].Null? ==> Taken(t, p, taken + {key}) == Taken(t, p, taken) - {key}
    ensures !p[key].Null? ==>
            Taken(t, p, taken + {key}) == Taken(t, p, taken)[key := Merge(if key in t then t[key] else Null, p[key])]
  {
  }

  lemma AllTaken(target: Value, p: map<string, Value>)
    ensures Merge(target, Obj(p)) == Obj(Taken(Members(target), p, p.Keys))
  {
  }

  /** The program: entries are taken one after the other, whatever their order,
      and what is built is the order-free result. */
  method MergePatch(target: Value, patch: Value) returns (r: Value)
    ensures r == Merge(target, patch)
    decreases patch
  {
    match patch
    case Obj(p) =>
      var obj := Members(target);
      ghost var t := obj;
      ghost var taken := {};
      var rest := p.Keys;
      while rest != {}
        invariant taken !! rest && taken + rest == p.Keys
        invariant obj == Taken(t, p, taken)
      {
        var key :| key in rest;
        TakeOne(t, p, taken, key);
        if p[key].Null? {
          obj := obj - {key};
        } else {
          var merged := MergePatch(if key in obj then obj[key] else Null, p[key]);
          obj := obj[key := merged];
        }
        rest, taken := rest - {key}, taken + {key};
      }
      AllTaken(target, p);
      r := Obj(obj);
    case _ =>
      r := patch;
  }

  // ---- what a merged document reads

  /** The path comes to an object of the patch and leaves it by a member it lacks. */
  ghost predicate PartsFrom(patch: Value, path: seq<string>) {
    exists i: nat :: i < |path| && LeavesAt(patch, path, i)
  }

  predicate LeavesAt(patch: Value, path: seq<string>, i: nat)
    requires i < |path|
  {
    match Lookup(patch, path[..i])
    case Some(Obj(members)) => path[i] !in members
    case _ => false
  }

  /** What RFC 7386 says of one path of the result: what the patch writes is read
      there, what it nulls is gone, where it has an object there is one, and a path
      the patch says nothing of reads as it did. */
  ghost predicate ReadsMerged(target: Value, patch: Value, r: Value, path: seq<string>) {
    match Lookup(patch, path)
    case Some(Obj(_)) => Lookup(r, path).Some? && Lookup(r, path).value.Obj?
    case Some(Null) => Lookup(r, path) == if path == [] then Some(Null) else None
    case Some(v) => Lookup(r, path) == Some(v)
    case None => PartsFrom(patch, path) ==> Lookup(r, path) == Lookup(target, path)
  }

  /** A path behind a member: the same path behind that member's patch. */
  lemma PartsBehind(p: map<string, Value>, path: seq<string>)
    requires path != [] && path[0] in p
    ensures PartsFrom(p[path[0]], path[1..]) <==> PartsFrom(Obj(p), path)
  {
    if PartsFrom(p[path[0]], path[1..]) {
      var i: nat :| i < |path| - 1 && LeavesAt(p[path[0]], path[1..], i);
      assert path[..i + 1][1..] == path[1..][..i];
      assert LeavesAt(Obj(p), path, i + 1);
    }
    if PartsFrom(Obj(p), path) {
      var i: nat :| i < |path| && LeavesAt(Obj(p), path, i);
      assert i > 0;
      assert path[..i][1..] == path[1..][..i - 1];
      assert LeavesAt(p[path[0]], path[1..], i - 1);
    }
  }

  lemma {:induction false} MergeReads(target: Value, patch: Value, path: seq<string>)
    ensures ReadsMerged(target, patch, Merge(target, patch), path)
    decreases |path|
  {
    if path == [] {
    } else if patch.Obj? && path[0] in patch.members {
      var k, sub := path[0], patch.members[path[0]];
      PartsBehind(patch.members, path);
      MergeReads(Member(target, k), sub, path[1..]);
    } else if patch.Obj? {
      assert path[..0] == [];
      assert LeavesAt(patch, path, 0);
    }
  }

  lemma LookupOne(v: Value, k: string)
    ensures Lookup(v, [k]) == if v.Obj? && k in v.members then Some(v.members[k]) else None
  {
    assert [k][1..] == [];
  }

  lemma MemberReads(target: Value, patch: Value, r: Value, k: string)
    requires patch.Obj? && r.Obj? && ReadsMerged(target, patch, r, [k])
    ensures k in patch.members && patch.members[k].Null? ==> k !in r.members
    ensures k in patch.members && !patch.members[k].Null? ==> k in r.members
    ensures k !in patch.members ==> Lookup(r, [k]) == Lookup(target, [k]) && (k in r.members <==> k in Members(target)) && Member(r, k) == Member(target, k)
  {
    LookupOne(patch, k);
    LookupOne(r, k);
    LookupOne(target, k);
    if k !in patch.members {
      assert [k][..0] == [];
      assert LeavesAt(patch, [k], 0);
    }
  }

  lemma ReadsBehind(target: Value, patch: Value, r: Value, k: string, path: seq<string>)
    requires patch.Obj? && k in patch.members && r.Obj? && k in r.members && !patch.members[k].Null?
    requires ReadsMerged(target, patch, r, [k] + path)
    ensures ReadsMerged(Member(target, k), patch.members[k], r.members[k], path)
  {
    assert ([k] + path)[1..] == path && ([k] + path)[0] == k;
    PartsBehind(patch.members, [k] + path);
    hide PartsFrom;
  }

  lemma {:induction false} OnlyMergeReads(target: Value, patch: Value, r: Value)
    requires forall path :: ReadsMerged(target, patch, r, path)
    ensures r == Merge(target, patch)
    decreases patch
  {
    assert ReadsMerged(target, patch, r, []);
    if patch.Obj? {
      var p, merged := patch.members, Merge(target, patch);
      forall k ensures k in r.members <==> k in merged.members
               ensures k in r.members && k in merged.members ==> r.members[k] == merged.members[k]
      {
        MemberReads(target, patch, r, k);
        if k in p && !p[k].Null? {
          forall path ensures ReadsMerged(Member(target, k), p[k], r.members[k], path) {
            assert ReadsMerged(target, patch, r, [k] + path);
            ReadsBehind(target, patch, r, k, path);
          }
          OnlyMergeReads(Member(target, k), p[k], r.members[k]);
        }
      }
      assert r.members == merged.members;
    }
  }

  /** A document is the merged one exactly when every path of it reads as said. */
  lemma MergeExactly(target: Value, patch: Value, r: Value)
    ensures r == Merge(target, patch) <==> forall path :: ReadsMerged(target, patch, r, path)
  {
    forall path ensures ReadsMerged(target, patch, Merge(target, patch), path) {
      MergeReads(target, patch, path);
    }
    if forall path :: ReadsMerged(target, patch, r, path) {
      OnlyMergeReads(target, patch, r);
    }
  }

  lemma {:induction false} MergeIdempotent(target: Value, patch: Value)
    ensures Merge(Merge(target, patch), patch) == Merge(target, patch)
    decreases patch
  {
    if !patch.Obj? {
    } else {
      var once := Merge(target, patch);
      var twice := Merge(once, patch);
      forall k | k in patch.members && !patch.members[k].Null?
        ensures twice.members[k] == once.members[k]
      {
        MergeIdempotent(Member(target, k), patch.members[k]);
      }
      assert twice.members == once.members;
    }
  }

  /** Two patches that write no member differently. */
  predicate Compatible(a: Value, b: Value)
    decreases a
  {
    if a.Obj? && b.Obj?
    then forall k :: k in a.members && k in b.members ==> Compatible(a.members[k], b.members[k])
    else a == b
  }

  lemma {:induction false} CompatiblePatchesCommute(target: Value, a: Value, b: Value)
    requires Compatible(a, b)
    ensures Merge(Merge(target, a), b) == Merge(Merge(target, b), a)
    decreases a
  {
    if !a.Obj? || !b.Obj? {
    } else {
      var ab := Merge(Merge(target, a), b);
      var ba := Merge(Merge(target, b), a);
      forall k | k in a.members && k in b.members
        ensures Merge(Merge(Member(target, k), a.members[k]), b.members[k])
             == Merge(Merge(Member(target, k), b.members[k]), a.members[k])
      {
        CompatiblePatchesCommute(Member(target, k), a.members[k], b.members[k]);
      }
      assert ab.members.Keys == ba.members.Keys;
      assert ab.members == ba.members;
    }
  }

  /** A document on which two incompatible patches do not commute. */
  function Clash(a: Value, b: Value): Value
    requires !Compatible(a, b)
    decreases a
  {
    if a.Obj? && b.Obj? then
      Obj(map k | k in a.members && k in b.members && !Compatible(a.members[k], b.members[k]) ::
        Clash(a.members[k], b.members[k]))
    else
      Null
  }

  lemma {:induction false} IncompatiblePatchesClash(a: Value, b: Value)
    requires !Compatible(a, b)
    ensures Merge(Merge(Clash(a, b), a), b) != Merge(Merge(Clash(a, b), b), a)
    decreases a
  {
    if !a.Obj? || !b.Obj? {
    } else {
      var k :| k in a.members && k in b.members && !Compatible(a.members[k], b.members[k]);
      IncompatiblePatchesClash(a.members[k], b.members[k]);
      var t := Clash(a, b);
      assert Member(t, k) == Clash(a.members[k], b.members[k]);
      var ab := Merge(Merge(t, a), b);
      var ba := Merge(Merge(t, b), a);
      if !a.members[k].Null? && !b.members[k].Null? {
        assert ab.members[k] == Merge(Merge(Member(t, k), a.members[k]), b.members[k]);
        assert ba.members[k] == Merge(Merge(Member(t, k), b.members[k]), a.members[k]);
      } else {
        assert k in ab.members <==> k !in ba.members;
      }
    }
  }

  /** Patches commute on every document exactly when they write no member
      differently: what lets parallel branches complete in either order. */
  lemma CommuteExactlyWhenCompatible(a: Value, b: Value)
    ensures Compatible(a, b) <==>
            forall target :: Merge(Merge(target, a), b) == Merge(Merge(target, b), a)
  {
    if Compatible(a, b) {
      forall target ensures Merge(Merge(target, a), b) == Merge(Merge(target, b), a) {
        CompatiblePatchesCommute(target, a, b);
      }
    } else {
      IncompatiblePatchesClash(a, b);
    }
  }

  // ---- replacement at a bound path

  /** Replace what stands at `path`, making objects along the way. */
  function Assign(doc: Value, path: seq<string>, value: Value): Value
    decreases |path|
  {
    if path == [] then value
    else Obj(Members(doc)[path[0] := Assign(Member(doc, path[0]), path[1..], value)])
  }

  lemma {:induction false} AssignReadsBack(doc: Value, path: seq<string>, value: Value)
    ensures Lookup(Assign(doc, path, value), path) == Some(value)
    decreases |path|
  {
    if path == [] {
    } else {
      AssignReadsBack(Member(doc, path[0]), path[1..], value);
    }
  }

  /** Every path that parts from the bound one reads as before, present or absent. */
  lemma {:induction false} AssignKeepsOtherPaths(doc: Value, path: seq<string>, value: Value, other: seq<string>, i: nat)
    requires i < |path| && i < |other| && path[..i] == other[..i] && path[i] != other[i]
    ensures Lookup(Assign(doc, path, value), other) == Lookup(doc, other)
    decreases |path|
  {
    if i == 0 {
    } else {
      assert path[0] == path[..i][0] && other[0] == other[..i][0];
      assert path[1..][..i - 1] == path[..i][1..] && other[1..][..i - 1] == other[..i][1..];
      AssignKeepsOtherPaths(Member(doc, path[0]), path[1..], value, other[1..], i - 1);
    }
  }

  // ---- correlation keys

  function Digits(n: nat): string {
    if n < 10 then ['0' + n as char] else Digits(n / 10) + ['0' + (n % 10) as char]
  }

  function DecimalText(i: int): string {
    if i < 0 then "-" + Digits(-i) else Digits(i)
  }

  /** A key is a string or an integer of 64 bits, signed or unsigned. */
  function KeyText(v: Value): Option<string> {
    match v
    case Str(s) => Some(s)
    case Int(i) =>
      if -0x8000_0000_0000_0000 <= i < 0x1_0000_0000_0000_0000 then Some(DecimalText(i)) else None
    case _ => None
  }

  /** What a row of digits stands for. */
  function Number(digits: string): int {
    if digits == "" then 0 else 10 * Number(digits[..|digits| - 1]) + (digits[|digits| - 1] as int - '0' as int)
  }

  predicate AllDigits(text: string) {
    text != "" && forall c :: c in text ==> '0' <= c <= '9'
  }

  /** An integer written out: digits without a leading zero, after a minus sign if
      it is negative. */
  predicate Writes(text: string, i: int) {
    if i < 0 then text != "" && text[0] == '-' && AllDigits(text[1..]) && text[1] != '0' && Number(text[1..]) == -i
    else AllDigits(text) && (text[0] == '0' ==> i == 0 && |text| == 1) && Number(text) == i
  }

  lemma {:induction false} DigitsWrite(n: nat)
    ensures Writes(Digits(n), n)
  {
    if n >= 10 {
      DigitsWrite(n / 10);
      var front, last := Digits(n / 10), '0' + (n % 10) as char;
      assert (front + [last])[..|front|] == front;
      assert forall c :: c in front + [last] ==> c in front || c == last;
    }
  }

  /** A text is its own key, an integer the integer written out where 64 bits can hold
      it, and nothing else is a key. */
  lemma KeyReads(v: Value)
    ensures match (v, KeyText(v))
            case (Str(s), key) => key == Some(s)
            case (Int(i), Some(text)) => -9223372036854775808 <= i <= 18446744073709551615 && Writes(text, i)
            case (Int(i), None) => i < -9223372036854775808 || i > 18446744073709551615
            case (_, key) => key.None?
  {
    match v
    case Int(i) =>
      DigitsWrite(if i < 0 then -i else i);
      assert i < 0 ==> DecimalText(i)[1..] == Digits(-i);
    case _ =>
  }

  /** Different integers never share a key. */
  lemma KeysDiffer(i: int, j: int)
    requires KeyText(Int(i)).Some? && KeyText(Int(i)) == KeyText(Int(j))
    ensures i == j
  {
    KeyReads(Int(i));
    KeyReads(Int(j));
    var text := KeyText(Int(i)).value;
    assert text[0] in text;
  }
}
