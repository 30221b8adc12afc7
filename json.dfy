/** An abstract JSON value, the target of serialisation (`serde_json::Value`).
    Objects keep their members in the order the serialiser writes them. */
module JsonValue {
  import opened Wrappers

  /** The bit pattern of a Rust `f32`. Its numeric meaning is not modelled:
      only whether a float field is present matters here. */
  datatype F32 = F32(bits: bv32)

  datatype Number = Int(i: int) | Float(f: F32)

  datatype Value =
    | JNull
    | JBool(b: bool)
    | JNum(n: Number)
    | JStr(s: string)
    | JArr(items: seq<Value>)
    | JObj(members: seq<(string, Value)>)

  /** The keys of an object's members, in order. */
  function Keys(members: seq<(string, Value)>): (ks: seq<string>)
    ensures |ks| == |members|
  {
    seq(|members|, i requires 0 <= i < |members| => members[i].0)
  }

  lemma KeysAppend(a: seq<(string, Value)>, b: seq<(string, Value)>)
    ensures Keys(a + b) == Keys(a) + Keys(b)
  {
  }

  predicate HasKey(v: Value, k: string) {
    v.JObj? && k in Keys(v.members)
  }

  /** No string occurs twice in a list. */
  predicate NoRepeats(ks: seq<string>) {
    forall i, j :: 0 <= i < j < |ks| ==> ks[i] != ks[j]
  }

  /** No key occurs twice: the object is a well-formed JSON object. */
  predicate DistinctKeys(members: seq<(string, Value)>) {
    NoRepeats(Keys(members))
  }

  lemma NoRepeatsPrepend(k: string, ks: seq<string>)
    requires k !in ks && NoRepeats(ks)
    ensures NoRepeats([k] + ks)
  {
    var all := [k] + ks;
    assert forall j :: 1 <= j < |all| ==> all[j] == ks[j - 1];
  }

  /** The value of the first member called `k`. */
  function Lookup(members: seq<(string, Value)>, k: string): Option<Value> {
    if members == [] then None
    else if members[0].0 == k then Some(members[0].1)
    else Lookup(members[1..], k)
  }

  /** `Lookup` finds a member exactly when one carries the key, and what it
      finds is that member's value. */
  lemma {:induction false} LookupFound(members: seq<(string, Value)>, k: string)
    ensures Lookup(members, k).Some? <==> k in Keys(members)
    ensures Lookup(members, k).Some? ==> (k, Lookup(members, k).value) in members
  {
    if members != [] {
      LookupFound(members[1..], k);
      assert Keys(members) == [members[0].0] + Keys(members[1..]);
    }
  }

  /** The first member called `k` is the one `Lookup` finds. */
  lemma {:induction false} LookupAt(members: seq<(string, Value)>, i: nat, k: string)
    requires i < |members| && members[i].0 == k
    requires forall j :: 0 <= j < i ==> members[j].0 != k
    ensures Lookup(members, k) == Some(members[i].1)
  {
    if i > 0 {
      LookupAt(members[1..], i - 1, k);
    }
  }

  /** A key no member carries is not found. */
  lemma {:induction false} LookupMissing(members: seq<(string, Value)>, k: string)
    requires forall j :: 0 <= j < |members| ==> members[j].0 != k
    ensures Lookup(members, k) == None
  {
    if members != [] {
      LookupMissing(members[1..], k);
    }
  }

  /** The member `k` of an object; `None` for a missing key or a non-object. */
  function Get(v: Value, k: string): Option<Value> {
    if v.JObj? then Lookup(v.members, k) else None
  }

  lemma GetIffHasKey(v: Value, k: string)
    ensures Get(v, k).Some? <==> HasKey(v, k)
  {
    if v.JObj? { LookupFound(v.members, k); }
  }

  /** One member, present only when the Rust value is `Some`
      (`#[serde(skip_serializing_if = "Option::is_none")]`). */
  function OptMember(k: string, v: Option<Value>): (ms: seq<(string, Value)>)
    ensures Keys(ms) == if v.Some? then [k] else []
    ensures v.Some? ==> ms == [(k, v.value)]
  {
    if v.Some? then [(k, v.value)] else []
  }

  function OptStr(s: Option<string>): (r: Option<Value>)
    ensures r.Some? <==> s.Some?
    ensures s.Some? ==> r.value == JStr(s.value)
  {
    match s
    case None => None
    case Some(t) => Some(JStr(t))
  }

  function OptNat(x: Option<nat>): (r: Option<Value>)
    ensures r.Some? <==> x.Some?
    ensures x.Some? ==> r.value == JNum(Int(x.value))
  {
    match x
    case None => None
    case Some(n) => Some(JNum(Int(n)))
  }

  function OptFloat(x: Option<F32>): (r: Option<Value>)
    ensures r.Some? <==> x.Some?
    ensures x.Some? ==> r.value == JNum(Float(x.value))
  {
    match x
    case None => None
    case Some(f) => Some(JNum(Float(f)))
  }

  function OptBool(x: Option<bool>): (r: Option<Value>)
    ensures r.Some? <==> x.Some?
    ensures x.Some? ==> r.value == JBool(x.value)
  {
    match x
    case None => None
    case Some(b) => Some(JBool(b))
  }

  /** Reads a string member: missing or not a string is `None`. */
  function GetStr(v: Value, k: string): Option<string> {
    var g := Get(v, k);
    if g.Some? && g.value.JStr? then Some(g.value.s) else None
  }

  /** The members of the fields that are set, in order: each field whose
      value is `None` is skipped. */
  function PresentMembers(fs: seq<(string, Option<Value>)>): (ms: seq<(string, Value)>)
    ensures |ms| <= |fs|
  {
    if fs == [] then []
    else if fs[0].1.Some? then [(fs[0].0, fs[0].1.value)] + PresentMembers(fs[1..])
    else PresentMembers(fs[1..])
  }

  /** A key that no field carries is not among the present members. */
  lemma {:induction false} PresentMembersMissing(fs: seq<(string, Option<Value>)>, k: string)
    requires forall j :: 0 <= j < |fs| ==> fs[j].0 != k
    ensures Lookup(PresentMembers(fs), k) == None
  {
    if fs != [] {
      PresentMembersMissing(fs[1..], k);
    }
  }

  /** Two leading members with keys of their own keep an object well formed. */
  lemma DistinctKeysPrepend2(k1: string, v1: Value, k2: string, v2: Value, rest: seq<(string, Value)>)
    requires k1 != k2 && k1 !in Keys(rest) && k2 !in Keys(rest) && DistinctKeys(rest)
    ensures DistinctKeys([(k1, v1), (k2, v2)] + rest)
  {
    KeysAppend([(k1, v1), (k2, v2)], rest);
    assert Keys([(k1, v1), (k2, v2)]) == [k1, k2];
    NoRepeatsPrepend(k2, Keys(rest));
    NoRepeatsPrepend(k1, [k2] + Keys(rest));
    assert [k1, k2] + Keys(rest) == [k1] + ([k2] + Keys(rest));
  }

  /** Skipping fields never makes two members share a key. */
  lemma {:induction false} PresentMembersDistinct(fs: seq<(string, Option<Value>)>)
    requires forall i, j :: 0 <= i < j < |fs| ==> fs[i].0 != fs[j].0
    ensures DistinctKeys(PresentMembers(fs))
  {
    if fs != [] {
      var rest := PresentMembers(fs[1..]);
      PresentMembersDistinct(fs[1..]);
      if fs[0].1.Some? {
        PresentMembersMissing(fs[1..], fs[0].0);
        LookupFound(rest, fs[0].0);
        KeysAppend([(fs[0].0, fs[0].1.value)], rest);
        NoRepeatsPrepend(fs[0].0, Keys(rest));
      }
    }
  }

  /** When the field keys are distinct, looking a field's key up among the
      present members yields exactly that field's optional value. */
  lemma {:induction false} PresentMembersLookup(fs: seq<(string, Option<Value>)>, i: nat)
    requires i < |fs|
    requires forall j :: 0 <= j < |fs| && j != i ==> fs[j].0 != fs[i].0
    ensures Lookup(PresentMembers(fs), fs[i].0) == fs[i].1
  {
    if i == 0 {
      PresentMembersMissing(fs[1..], fs[0].0);
    } else {
      PresentMembersLookup(fs[1..], i - 1);
    }
  }

  /** Looking up past a prefix that lacks the key. */
  lemma {:induction false} LookupSkip(pre: seq<(string, Value)>, rest: seq<(string, Value)>, k: string)
    requires forall j :: 0 <= j < |pre| ==> pre[j].0 != k
    ensures Lookup(pre + rest, k) == Lookup(rest, k)
  {
    if pre != [] {
      var all := pre + rest;
      assert all[0] == pre[0] && all[1..] == pre[1..] + rest;
      assert pre[0].0 != k;
      LookupSkip(pre[1..], rest, k);
      assert Lookup(all, k) == Lookup(all[1..], k);
    } else {
      assert pre + rest == rest;
    }
  }

  lemma {:induction false} PresentMembersNone(fs: seq<(string, Option<Value>)>)
    requires forall j :: 0 <= j < |fs| ==> fs[j].1.None?
    ensures PresentMembers(fs) == []
  {
    if fs != [] {
      PresentMembersNone(fs[1..]);
    }
  }

  /** With exactly one field set, that field is the only member written. */
  lemma {:induction false} PresentMembersSingle(fs: seq<(string, Option<Value>)>, i: nat)
    requires i < |fs| && fs[i].1.Some?
    requires forall j :: 0 <= j < |fs| && j != i ==> fs[j].1.None?
    ensures PresentMembers(fs) == [(fs[i].0, fs[i].1.value)]
  {
    if i == 0 {
      PresentMembersNone(fs[1..]);
    } else {
      PresentMembersSingle(fs[1..], i - 1);
    }
  }
}
