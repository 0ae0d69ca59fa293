// The two browser objects the services fill in step by step: the query
// parameters (`URLSearchParams`) and the multipart body (`FormData`). Both are
// ordered lists of name/value pairs that only ever grow by `append`.
module WebForms {
  import opened Common

  /** A multipart value: text, or a file (named by the handle the page holds). */
  datatype FormValue = TextValue(text: string) | FileValue(file: string)

  /** `URLSearchParams`: the pairs in the order they were appended. */
  class SearchParams {
    var entries: seq<(string, string)>

    constructor()
      ensures entries == []
    {
      entries := [];
    }

    /** `params.append(name, value)`. */
    method Append(name: string, value: string)
      modifies this
      ensures entries == old(entries) + [(name, value)]
    {
      entries := entries + [(name, value)];
    }
  }

  /** `FormData`: the pairs in the order they were appended. */
  class FormData {
    var entries: seq<(string, FormValue)>

    constructor()
      ensures entries == []
    {
      entries := [];
    }

    /** `formData.append(name, value)`. */
    method Append(name: string, value: FormValue)
      modifies this
      ensures entries == old(entries) + [(name, value)]
    {
      entries := entries + [(name, value)];
    }
  }

  /** The names of the pairs, in order. */
  function Names<V>(entries: seq<(string, V)>): (r: seq<string>)
    ensures |r| == |entries|
    decreases |entries|
  {
    if entries == [] then [] else [entries[0].0] + Names(entries[1..])
  }

  /** `params.get(name)`: the first value under the name. */
  function Get<V>(entries: seq<(string, V)>, name: string): (r: Option<V>)
    decreases |entries|
  {
    if entries == [] then None
    else if entries[0].0 == name then Some(entries[0].1)
    else Get(entries[1..], name)
  }

  /** A name is read back exactly when some pair carries it, and then with a value it was given. */
  lemma {:induction false} GetFindsName<V>(entries: seq<(string, V)>, name: string)
    ensures Get(entries, name).None? <==> name !in Names(entries)
    ensures Get(entries, name).Some? ==> (name, Get(entries, name).value) in entries
    decreases |entries|
  {
    if entries != [] && entries[0].0 != name {
      GetFindsName(entries[1..], name);
    }
  }

  /** The names of two lists of pairs, one after the other. */
  lemma {:induction false} NamesAppend<V>(a: seq<(string, V)>, b: seq<(string, V)>)
    ensures Names(a + b) == Names(a) + Names(b)
    decreases |a|
  {
    if a != [] {
      assert (a + b)[1..] == a[1..] + b;
      NamesAppend(a[1..], b);
    } else {
      assert a + b == b;
    }
  }

  /** Reading a name that the first pairs do not carry skips them. */
  lemma {:induction false} GetAfter<V>(a: seq<(string, V)>, b: seq<(string, V)>, name: string)
    requires name !in Names(a)
    ensures Get(a + b, name) == Get(b, name)
    decreases |a|
  {
    if a != [] {
      assert Names(a) == [a[0].0] + Names(a[1..]);
      assert a[0].0 != name && name !in Names(a[1..]);
      assert (a + b)[0] == a[0];
      assert (a + b)[1..] == a[1..] + b;
      GetAfter(a[1..], b, name);
    } else {
      assert a + b == b;
    }
  }

  /**
   * `params.toString()`: `name=value` for each pair, joined by '&', with
   * `encode` the form encoding of a component.
   */
  function Serialize(entries: seq<(string, string)>, encode: string -> string): (r: string)
    ensures r == "" <==> entries == []
  {
    var parts := seq(|entries|, i requires 0 <= i < |entries| => encode(entries[i].0) + "=" + encode(entries[i].1));
    if parts == [] then "" else
      assert parts[0][|encode(entries[0].0)|] == '=';
      JoinStartsWithFirst(parts, "&");
      Join(parts, "&")
  }

  lemma JoinStartsWithFirst(parts: seq<string>, sep: string)
    requires parts != []
    ensures parts[0] <= Join(parts, sep)
  {
  }

  /** `queryString ? `${base}?${queryString}` : base`. */
  function WithQuery(base: string, entries: seq<(string, string)>, encode: string -> string): (r: string)
    ensures entries == [] ==> r == base
    ensures entries != [] ==> r == base + "?" + Serialize(entries, encode)
  {
    var q := Serialize(entries, encode);
    if q != "" then base + "?" + q else base
  }

  /** One pair when `present`, none otherwise: a guarded `append`. */
  function AppendIf<V>(present: bool, name: string, value: V): seq<(string, V)>
  {
    if present then [(name, value)] else []
  }

  /** The name a guarded append contributes. */
  function NameIf(present: bool, name: string): (r: seq<string>)
    ensures forall x :: x in r <==> present && x == name
  {
    if present then [name] else []
  }

  lemma NamesOfAppendIf<V>(present: bool, name: string, value: V)
    ensures Names(AppendIf(present, name, value)) == NameIf(present, name)
  {
    if present {
      assert AppendIf(present, name, value)[1..] == [];
    }
  }

  /** `if (x) params.append(name, value)`: the guarded append the services write for each filter. */
  method AppendParamIf(params: SearchParams, present: bool, name: string, value: string)
    modifies params
    ensures params.entries == old(params.entries) + AppendIf(present, name, value)
  {
    if present {
      params.Append(name, value);
    }
  }
}
