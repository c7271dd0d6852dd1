/** List operations keyed by an `id` string, shared by every collection the
    application keeps (receipts, invoices, business profiles, line items):
    `findIndex`/`find` by id, the upsert that replaces the first entry with
    the same id or appends, and the `filter` that drops an id. Each is
    generic in the element type, with the id projection as a parameter. */
module ById {
  import opened Types

  /** `s.findIndex(e => key(e) === id)`: the first position holding `id`, or -1. */
  function FindIndex<T>(s: seq<T>, key: T -> string, id: string): (i: int)
    ensures -1 <= i < |s|
    ensures 0 <= i ==> key(s[i]) == id
    ensures 0 <= i ==> forall j :: 0 <= j < i ==> key(s[j]) != id
    ensures i == -1 ==> forall j :: 0 <= j < |s| ==> key(s[j]) != id
  {
    if s == [] then -1
    else if key(s[0]) == id then 0
    else
      var i := FindIndex(s[1..], key, id);
      if i < 0 then -1 else i + 1
  }

  /** `s.find(e => key(e) === id) || null`. */
  function Find<T>(s: seq<T>, key: T -> string, id: string): (r: Option<T>)
    ensures r.None? <==> forall j :: 0 <= j < |s| ==> key(s[j]) != id
    ensures r.Some? ==> exists j :: 0 <= j < |s| && s[j] == r.value && key(r.value) == id
    ensures r.Some? ==> r.value == s[FindIndex(s, key, id)]
  {
    var i := FindIndex(s, key, id);
    if i < 0 then None else Some(s[i])
  }

  /** Replace the first element with the same id as `x` in place, or append `x`. */
  function Upsert<T>(s: seq<T>, key: T -> string, x: T): (r: seq<T>)
  {
    var i := FindIndex(s, key, key(x));
    if i >= 0 then s[i := x] else s + [x]
  }

  /** `s.filter(e => key(e) !== id)`. */
  function RemoveId<T>(s: seq<T>, key: T -> string, id: string): (r: seq<T>)
  {
    if s == [] then []
    else if key(s[0]) == id then RemoveId(s[1..], key, id)
    else [s[0]] + RemoveId(s[1..], key, id)
  }

  /** `a` is `b` with some elements left out, order kept. */
  predicate IsSubsequence<T(==)>(a: seq<T>, b: seq<T>)
    decreases |b|
  {
    if a == [] then true
    else if b == [] then false
    else if a[0] == b[0] then IsSubsequence(a[1..], b[1..])
    else IsSubsequence(a, b[1..])
  }

  /** How many elements of `s` carry `id`. */
  function CountId<T>(s: seq<T>, key: T -> string, id: string): (n: nat)
    ensures n <= |s|
  {
    if s == [] then 0 else (if key(s[0]) == id then 1 else 0) + CountId(s[1..], key, id)
  }

  // ---------------------------------------------------------------------
  // Upsert

  /** With an existing id, upsert replaces the first match in place and keeps
      every other position and the length. */
  lemma UpsertReplaces<T>(s: seq<T>, key: T -> string, x: T, i: nat)
    requires i < |s| && key(s[i]) == key(x)
    requires forall j :: 0 <= j < i ==> key(s[j]) != key(x)
    ensures |Upsert(s, key, x)| == |s|
    ensures Upsert(s, key, x)[i] == x
    ensures forall j :: 0 <= j < |s| && j != i ==> Upsert(s, key, x)[j] == s[j]
  {
    var k := FindIndex(s, key, key(x));
    assert k == i by {
      if k < 0 {
      } else if k < i {
      } else if k > i {
      }
    }
  }

  /** With a new id, upsert appends at the end. */
  lemma UpsertAppends<T>(s: seq<T>, key: T -> string, x: T)
    requires forall j :: 0 <= j < |s| ==> key(s[j]) != key(x)
    ensures Upsert(s, key, x) == s + [x]
  {
  }

  /** Upsert keeps the length when the id exists and grows it by one otherwise. */
  lemma UpsertLength<T>(s: seq<T>, key: T -> string, x: T)
    ensures |Upsert(s, key, x)| == if exists j :: 0 <= j < |s| && key(s[j]) == key(x) then |s| else |s| + 1
  {
  }

  /** After an upsert, looking the element's id up finds that element. */
  lemma FindAfterUpsert<T>(s: seq<T>, key: T -> string, x: T)
    ensures Find(Upsert(s, key, x), key, key(x)) == Some(x)
  {
    var r := Upsert(s, key, x);
    var i := FindIndex(s, key, key(x));
    if i >= 0 {
      assert r[i] == x;
      assert forall j :: 0 <= j < i ==> r[j] == s[j];
    } else {
      assert r == s + [x];
      assert r[|s|] == x;
      assert forall j :: 0 <= j < |s| ==> r[j] == s[j];
    }
  }

  /** An upsert does not change what is found under any other id. */
  lemma FindOtherAfterUpsert<T>(s: seq<T>, key: T -> string, x: T, id: string)
    requires id != key(x)
    ensures Find(Upsert(s, key, x), key, id) == Find(s, key, id)
  {
    var r := Upsert(s, key, x);
    var i := FindIndex(s, key, key(x));
    assert forall j :: 0 <= j < |s| ==> (key(r[j]) == id <==> key(s[j]) == id);
    assert forall j :: 0 <= j < |s| && key(s[j]) == id ==> r[j] == s[j];
    if i < 0 {
      assert r == s + [x];
    }
  }

  // ---------------------------------------------------------------------
  // RemoveId

  /** What `RemoveId` keeps: exactly the elements whose id differs, in their
      original order, and nothing carrying `id` is left. */
  lemma {:induction false} RemoveIdSpec<T>(s: seq<T>, key: T -> string, id: string)
    ensures forall e :: e in RemoveId(s, key, id) <==> e in s && key(e) != id
    ensures IsSubsequence(RemoveId(s, key, id), s)
    ensures |RemoveId(s, key, id)| == |s| - CountId(s, key, id)
    ensures CountId(RemoveId(s, key, id), key, id) == 0
  {
    if s != [] {
      RemoveIdSpec(s[1..], key, id);
      var rest := RemoveId(s[1..], key, id);
      if key(s[0]) == id {
        SubsequenceDropHead(rest, s);
      } else {
        assert ([s[0]] + rest)[1..] == rest;
        assert forall e :: e in [s[0]] + rest <==> e == s[0] || e in rest;
      }
    }
  }

  /** A subsequence of the tail is a subsequence of the whole sequence. */
  lemma {:induction false} SubsequenceDropHead<T>(a: seq<T>, b: seq<T>)
    requires b != [] && IsSubsequence(a, b[1..])
    ensures IsSubsequence(a, b)
    decreases |a| + |b|
  {
    if a != [] && a[0] == b[0] {
      SubsequenceTail(a, b[1..]);
    }
  }

  /** Dropping the first element of a subsequence keeps it a subsequence. */
  lemma {:induction false} SubsequenceTail<T>(a: seq<T>, b: seq<T>)
    requires a != [] && IsSubsequence(a, b)
    ensures IsSubsequence(a[1..], b)
    decreases |a| + |b|
  {
    assert b != [];
    if a[0] == b[0] {
      SubsequenceDropHead(a[1..], b);
    } else {
      SubsequenceTail(a, b[1..]);
      SubsequenceDropHead(a[1..], b);
    }
  }

  /** Every sequence is a subsequence of itself. */
  lemma {:induction false} SubsequenceRefl<T>(a: seq<T>)
    ensures IsSubsequence(a, a)
  {
    if a != [] {
      SubsequenceRefl(a[1..]);
    }
  }

  /** The subsequence relation is transitive. */
  lemma {:induction false} SubsequenceTrans<T>(a: seq<T>, b: seq<T>, c: seq<T>)
    requires IsSubsequence(a, b) && IsSubsequence(b, c)
    ensures IsSubsequence(a, c)
    decreases |c|
  {
    if a != [] {
      assert b != [] && c != [];
      if b[0] == c[0] {
        if a[0] == b[0] {
          SubsequenceTrans(a[1..], b[1..], c[1..]);
        } else {
          SubsequenceTrans(a, b[1..], c[1..]);
          SubsequenceDropHead(a, c);
        }
      } else {
        SubsequenceTrans(a, b, c[1..]);
        SubsequenceDropHead(a, c);
      }
    }
  }

  /** Removing an id that no element carries changes nothing. */
  lemma {:induction false} RemoveAbsentId<T>(s: seq<T>, key: T -> string, id: string)
    requires forall j :: 0 <= j < |s| ==> key(s[j]) != id
    ensures RemoveId(s, key, id) == s
  {
    if s != [] {
      RemoveAbsentId(s[1..], key, id);
    }
  }

  /** After removing an id, it can no longer be found. */
  lemma FindAfterRemove<T>(s: seq<T>, key: T -> string, id: string)
    ensures Find(RemoveId(s, key, id), key, id) == None
  {
    RemoveIdSpec(s, key, id);
    var r := RemoveId(s, key, id);
    forall j | 0 <= j < |r| ensures key(r[j]) != id {
      assert r[j] in r;
    }
  }
}
