/**
 * The header builder of src/utils.ts:15-41. `headers(init)` checks that `init` is an
 * object, wraps it in a native `Headers` container and returns `set`, `remove`, `get` and
 * `toHeaders`, which all work on that one container.
 *
 * The container is modelled by its header list (section 5.1 of the WHATWG Fetch
 * Standard): an ordered list of (lower-cased name, value) pairs. `append` adds a pair at
 * the end, `delete` drops every pair under the name, `get` joins the values under the name
 * with ", ", and `set` (used by request interceptors) replaces the first value and drops
 * the others.
 */
module HeaderBuilder {
  import opened Wrappers
  import opened JsText
  import opened Errors
  import opened RequestModel

  type FieldList = seq<(string, string)>

  /** The header list `new Headers(...)` builds from (name, value) entries, in order. */
  function Normalized(entries: seq<(string, string)>): (l: FieldList)
    ensures |l| == |entries|
  {
    seq(|entries|, i requires 0 <= i < |entries| => (AsciiLower(entries[i].0), entries[i].1))
  }

  /** The values stored under `name`, whatever its case, in list order. */
  function Values(l: FieldList, name: string): seq<string> {
    Matching(l, AsciiLower(name))
  }

  /** The values of the pairs whose name is exactly `lowered`, in list order. */
  function Matching(l: FieldList, lowered: string): seq<string> {
    if l == [] then []
    else (if l[0].0 == lowered then [l[0].1] else []) + Matching(l[1..], lowered)
  }

  /** `headers.append(name, value)`. */
  function Appended(l: FieldList, name: string, value: string): FieldList {
    l + [(AsciiLower(name), value)]
  }

  /** `headers.delete(name)`: the pairs of `l` under other names, in order. */
  function Deleted(l: FieldList, name: string): (r: FieldList)
    ensures forall p :: p in r ==> p in l && p.0 != AsciiLower(name)
  {
    if l == [] then []
    else if l[0].0 == AsciiLower(name) then Deleted(l[1..], name)
    else [l[0]] + Deleted(l[1..], name)
  }

  /** `headers.get(name)`: the values under `name` joined with ", ", or `None` (`null`). */
  function Combined(l: FieldList, name: string): Option<string> {
    var vs := Values(l, name);
    if vs == [] then None else Some(Join(vs, ", "))
  }

  /** `headers.set(name, value)`. */
  function Replaced(l: FieldList, name: string, value: string): FieldList {
    if Values(l, name) == [] then Appended(l, name, value)
    else ReplaceFirst(l, AsciiLower(name), value)
  }

  function ReplaceFirst(l: FieldList, lowered: string, value: string): FieldList {
    if l == [] then []
    else if l[0].0 == lowered then [(lowered, value)] + Deleted(l[1..], lowered)
    else [l[0]] + ReplaceFirst(l[1..], lowered, value)
  }

  /**
   * The header list of `new Headers(init)` (also what `new Request(url, { headers: init })`
   * builds): a record or pair list is appended entry by entry, a `Headers` object is
   * copied, and anything that is not an object (`null` included) is refused with a
   * `TypeError`. A function is an object here, with no entries.
   */
  function InitList(init: HeaderSpec): Result<FieldList, Error> {
    match init
    case Undefined => Success([])
    case Callable => Success([])
    case Record(_) => Success(Normalized(OwnEntries(init)))
    case PairList(ps) => Success(Normalized(ps))
    case Instance(l) => Success(l)
    case _ => Failure(NotHeadersInit)
  }

  // ---------------------------------------------------------------------------
  // What append, delete, get and set do to the values under each name

  lemma {:induction false} MatchingConcat(a: FieldList, b: FieldList, lowered: string)
    ensures Matching(a + b, lowered) == Matching(a, lowered) + Matching(b, lowered)
  {
    if a == [] {
      assert a + b == b;
    } else {
      assert (a + b)[0] == a[0];
      assert (a + b)[1..] == a[1..] + b;
      MatchingConcat(a[1..], b, lowered);
    }
  }

  /** `append` adds its value after the existing values under the same name and touches no other name. */
  lemma ValuesAfterAppend(l: FieldList, name: string, value: string, other: string)
    ensures Values(Appended(l, name, value), other)
         == Values(l, other) + (if AsciiLower(name) == AsciiLower(other) then [value] else [])
  {
    MatchingConcat(l, [(AsciiLower(name), value)], AsciiLower(other));
  }

  /** `delete` removes every value under the name, whatever its case, and touches no other name. */
  lemma {:induction false} ValuesAfterDelete(l: FieldList, name: string, other: string)
    ensures Values(Deleted(l, name), other)
         == if AsciiLower(name) == AsciiLower(other) then [] else Values(l, other)
  {
    if l != [] {
      ValuesAfterDelete(l[1..], name, other);
      if l[0].0 != AsciiLower(name) {
        assert Deleted(l, name) == [l[0]] + Deleted(l[1..], name);
        assert ([l[0]] + Deleted(l[1..], name))[1..] == Deleted(l[1..], name);
      }
    }
  }

  /** `get` after `append` still sees the earlier values: append never overwrites. */
  lemma GetAfterAppend(l: FieldList, name: string, value: string)
    ensures Combined(Appended(l, name, value), name)
         == Some(match Combined(l, name) case None => value case Some(v) => v + ", " + value)
  {
    ValuesAfterAppend(l, name, value, name);
    var vs := Values(l, name);
    if vs != [] {
      JoinAppend(vs, ", ", value);
    }
  }

  /** After `delete(name)`, `get` of any spelling of that name is `null`. */
  lemma GetAfterDelete(l: FieldList, name: string, other: string)
    requires AsciiLower(name) == AsciiLower(other)
    ensures Combined(Deleted(l, name), other) == None
  {
    ValuesAfterDelete(l, name, other);
  }

  lemma {:induction false} ValuesReplaceFirst(l: FieldList, lowered: string, value: string, other: string)
    requires AsciiLower(lowered) == lowered && Values(l, lowered) != []
    ensures Values(ReplaceFirst(l, lowered, value), other)
         == if lowered == AsciiLower(other) then [value] else Values(l, other)
  {
    if l[0].0 == lowered {
      var rest := Deleted(l[1..], lowered);
      ValuesAfterDelete(l[1..], lowered, other);
      assert ([(lowered, value)] + rest)[1..] == rest;
    } else {
      assert Values(l, lowered) == Values(l[1..], lowered);
      ValuesReplaceFirst(l[1..], lowered, value, other);
      var rest := ReplaceFirst(l[1..], lowered, value);
      assert ([l[0]] + rest)[1..] == rest;
    }
  }

  /** `set` leaves exactly one value under the name and touches no other name. */
  lemma ValuesAfterSet(l: FieldList, name: string, value: string, other: string)
    ensures Values(Replaced(l, name, value), other)
         == if AsciiLower(name) == AsciiLower(other) then [value] else Values(l, other)
  {
    AsciiLowerIdempotent(name);
    if Values(l, name) == [] {
      ValuesAfterAppend(l, name, value, other);
    } else {
      assert Values(l, AsciiLower(name)) == Values(l, name);
      ValuesReplaceFirst(l, AsciiLower(name), value, other);
    }
  }

  // ---------------------------------------------------------------------------
  // The container and the builder

  /** A native `Headers` container, shared by reference. */
  class Headers {
    var list: FieldList

    constructor (list: FieldList)
      ensures this.list == list
    {
      this.list := list;
    }
  }

  /** The object `headers(init)` returns; its functions close over the one container `h`. */
  class Builder {
    const h: Headers

    constructor (h: Headers)
      ensures this.h == h
    {
      this.h := h;
    }

    /** `set(key, value)`: appends, and returns the builder for chaining. */
    method Set(key: string, value: string) returns (self: Builder)
      modifies h
      ensures h.list == Appended(old(h.list), key, value)
      ensures self == this
    {
      h.list := Appended(h.list, key, value);
      self := this;
    }

    /** `remove(key)`: deletes every value under the key, and returns the builder. */
    method Remove(key: string) returns (self: Builder)
      modifies h
      ensures h.list == Deleted(old(h.list), key)
      ensures self == this
    {
      h.list := Deleted(h.list, key);
      self := this;
    }

    /** `get(key)`: the values under the key joined with ", ", or `None` when there are none. */
    method Get(key: string) returns (v: Option<string>)
      ensures v.None? <==> Values(h.list, key) == []
      ensures v.Some? ==> v.value == Join(Values(h.list, key), ", ")
    {
      v := Combined(h.list, key);
    }

    /** `toHeaders()`: the container itself, so later `set`/`remove` calls show through it. */
    method ToHeaders() returns (r: Headers)
      ensures r == h
    {
      r := h;
    }
  }

  /**
   * `headers(init)`: `undefined` stands for `{}`; a value whose `typeof` is not "object"
   * is refused with `InvalidArgumentError('headers', ...)`; `null` passes that check and is
   * refused by the `Headers` constructor.
   */
  method BuildHeaders(init: HeaderSpec) returns (r: Result<Builder, Error>)
    ensures !init.Undefined? && !TypeofObject(init) ==> r == Failure(HeadersNotObject)
    ensures init.Null? ==> r == Failure(NotHeadersInit)
    ensures r.Success? <==> init.Undefined? || (TypeofObject(init) && !init.Null?)
    ensures r.Success? ==> fresh(r.value) && fresh(r.value.h) && InitList(init) == Success(r.value.h.list)
  {
    if !init.Undefined? && !TypeofObject(init) {
      return Failure(HeadersNotObject);
    }
    var list := InitList(init);
    if list.Failure? {
      return Failure(list.error);
    }
    var h := new Headers(list.value);
    var b := new Builder(h);
    r := Success(b);
  }
}
