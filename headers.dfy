/** The request's header multimap: an insertion-ordered list of name/value
    entries whose names are compared ignoring ASCII case, as the transport
    library's case-insensitive headers do. `add` appends an entry; `set`
    (what `putHeader` calls) removes every entry of that name and then
    appends the new one. */
module Headers {
  import opened Types

  /** ASCII case folding of one character: the result is never an upper-case
      ASCII letter, and only such a letter is changed. */
  function LowerChar(c: char): (l: char)
    ensures !('A' <= l <= 'Z')
    ensures l != c ==> 'A' <= c <= 'Z'
  {
    if 'A' <= c <= 'Z' then (c as int + 32) as char else c
  }

  /** Two header names denote the same header: of equal length and equal
      letter by letter once ASCII upper case is folded to lower case. */
  predicate NameEq(a: string, b: string)
  {
    |a| == |b| && forall i :: 0 <= i < |a| ==> LowerChar(a[i]) == LowerChar(b[i])
  }

  /** Every value stored under `name`, in insertion order (the multimap's `getAll`). */
  function GetAll(es: seq<Entry>, name: string): (vs: seq<string>)
    ensures |vs| <= |es|
  {
    if es == [] then []
    else (if NameEq(es[0].key, name) then [es[0].value] else []) + GetAll(es[1..], name)
  }

  /** The entries whose name is not `name`, in their order (the multimap's `remove`). */
  function Removed(es: seq<Entry>, name: string): (r: seq<Entry>)
    ensures |r| <= |es|
    ensures forall e :: e in r ==> e in es && !NameEq(e.key, name)
  {
    if es == [] then []
    else (if NameEq(es[0].key, name) then [] else [es[0]]) + Removed(es[1..], name)
  }

  /** The multimap after `set(name, value)`. */
  function Replaced(es: seq<Entry>, name: string, value: string): seq<Entry>
  {
    Removed(es, name) + [Entry(name, value)]
  }

  /** The multimap after `set` has been called for each entry of `puts`, in order. */
  function PutAll(es: seq<Entry>, puts: seq<Entry>): seq<Entry>
  {
    if puts == [] then es
    else
      var n := |puts| - 1;
      Replaced(PutAll(es, puts[..n]), puts[n].key, puts[n].value)
  }

  /** The value of the last entry of `puts` whose name is `name`, if any. */
  function LastValue(puts: seq<Entry>, name: string): (r: Option<string>)
    ensures r.None? <==> forall i :: 0 <= i < |puts| ==> !NameEq(puts[i].key, name)
  {
    if puts == [] then None
    else
      var n := |puts| - 1;
      if NameEq(puts[n].key, name) then Some(puts[n].value) else LastValue(puts[..n], name)
  }

  /** The value found is that of an entry of the name that no later entry
      of the name follows. */
  lemma {:induction false} LastValueIsLast(puts: seq<Entry>, name: string, i: nat)
    requires i < |puts| && NameEq(puts[i].key, name)
    requires forall j :: i < j < |puts| ==> !NameEq(puts[j].key, name)
    ensures LastValue(puts, name) == Some(puts[i].value)
  {
    var n := |puts| - 1;
    if i < n {
      assert !NameEq(puts[n].key, name);
      assert puts[..n][i] == puts[i];
      forall j | i < j < n ensures !NameEq(puts[..n][j].key, name) {
        assert puts[..n][j] == puts[j];
      }
      LastValueIsLast(puts[..n], name, i);
    }
  }

  lemma {:induction false} GetAllAppend(a: seq<Entry>, b: seq<Entry>, name: string)
    ensures GetAll(a + b, name) == GetAll(a, name) + GetAll(b, name)
  {
    if a == [] {
      assert a + b == b;
    } else {
      var head := if NameEq(a[0].key, name) then [a[0].value] else [];
      assert (a + b)[0] == a[0] && (a + b)[1..] == a[1..] + b;
      assert GetAll(a + b, name) == head + GetAll(a[1..] + b, name);
      GetAllAppend(a[1..], b, name);
    }
  }

  lemma GetAllCons(e: Entry, es: seq<Entry>, name: string)
    ensures GetAll([e] + es, name) == (if NameEq(e.key, name) then [e.value] else []) + GetAll(es, name)
  {
    GetAllAppend([e], es, name);
  }

  /** A name no entry carries has no values. */
  lemma {:induction false} GetAllAbsent(es: seq<Entry>, name: string)
    requires forall i :: 0 <= i < |es| ==> !NameEq(es[i].key, name)
    ensures GetAll(es, name) == []
  {
    if es != [] {
      GetAllAbsent(es[1..], name);
    }
  }

  /** A name carried by one entry only has that entry's value alone. */
  lemma GetAllSingle(front: seq<Entry>, e: Entry, back: seq<Entry>, name: string)
    requires forall i :: 0 <= i < |front| ==> !NameEq(front[i].key, name)
    requires forall i :: 0 <= i < |back| ==> !NameEq(back[i].key, name)
    requires e.key == name
    ensures GetAll(front + [e] + back, name) == [e.value]
  {
    GetAllAbsent(front, name);
    GetAllAbsent(back, name);
    GetAllAppend(front + [e], back, name);
    GetAllAppend(front, [e], name);
  }

  /** Removing `name` drops exactly its values and keeps every other name's. */
  lemma {:induction false} GetAllRemoved(es: seq<Entry>, name: string, other: string)
    ensures GetAll(Removed(es, name), other) == if NameEq(other, name) then [] else GetAll(es, other)
  {
    if es != [] {
      var head := if NameEq(es[0].key, name) then [] else [es[0]];
      GetAllAppend(head, Removed(es[1..], name), other);
      GetAllRemoved(es[1..], name, other);
    }
  }

  /** `set` leaves exactly one value under its name and changes no other name. */
  lemma ReplacedGetAll(es: seq<Entry>, name: string, value: string, other: string)
    ensures GetAll(Replaced(es, name, value), other) == if NameEq(other, name) then [value] else GetAll(es, other)
  {
    GetAllAppend(Removed(es, name), [Entry(name, value)], other);
    GetAllRemoved(es, name, other);
  }

  /** `add` appends one value under its name and changes no other name. */
  lemma AddedGetAll(es: seq<Entry>, name: string, value: string, other: string)
    ensures GetAll(es + [Entry(name, value)], other) == if NameEq(other, name) then GetAll(es, other) + [value] else GetAll(es, other)
  {
    GetAllAppend(es, [Entry(name, value)], other);
  }

  /** After a series of `set` calls, a name any of them used holds exactly the
      value of the last such call; every other name keeps its values. */
  lemma {:induction false} PutAllGetAll(es: seq<Entry>, puts: seq<Entry>, name: string)
    ensures GetAll(PutAll(es, puts), name) ==
              match LastValue(puts, name)
              case Some(v) => [v]
              case None => GetAll(es, name)
  {
    if puts != [] {
      var n := |puts| - 1;
      ReplacedGetAll(PutAll(es, puts[..n]), puts[n].key, puts[n].value, name);
      if !NameEq(puts[n].key, name) {
        PutAllGetAll(es, puts[..n], name);
      }
    }
  }

  /** The header multimap of one outgoing request. */
  class HeaderMultiMap {
    var entries: seq<Entry>

    constructor ()
      ensures entries == []
    {
      entries := [];
    }

    function Values(name: string): (vs: seq<string>)
      reads this
    {
      GetAll(entries, name)
    }

    method Add(name: string, value: string)
      modifies this
      ensures entries == old(entries) + [Entry(name, value)]
      ensures Values(name) == old(Values(name)) + [value]
      ensures forall other :: !NameEq(other, name) ==> Values(other) == old(Values(other))
    {
      entries := entries + [Entry(name, value)];
      AddedGetAll(old(entries), name, value, name);
      forall other | !NameEq(other, name)
        ensures GetAll(entries, other) == GetAll(old(entries), other)
      {
        AddedGetAll(old(entries), name, value, other);
      }
    }

    /** Adds every entry of `es`, in order, keeping what is already there. */
    method AddAll(es: seq<Entry>)
      modifies this
      ensures entries == old(entries) + es
    {
      var i := 0;
      while i < |es|
        invariant 0 <= i <= |es|
        invariant entries == old(entries) + es[..i]
      {
        Add(es[i].key, es[i].value);
        assert es[..i + 1] == es[..i] + [es[i]];
        i := i + 1;
      }
      assert es[..i] == es;
    }

    /** `set`: every earlier value of `name` is replaced by `value`. */
    method Set(name: string, value: string)
      modifies this
      ensures entries == Replaced(old(entries), name, value)
      ensures Values(name) == [value]
      ensures forall other :: !NameEq(other, name) ==> Values(other) == old(Values(other))
    {
      entries := Replaced(entries, name, value);
      ReplacedGetAll(old(entries), name, value, name);
      forall other | !NameEq(other, name)
        ensures GetAll(entries, other) == GetAll(old(entries), other)
      {
        ReplacedGetAll(old(entries), name, value, other);
      }
    }
  }
}
