/**
 * The heuristic registry shared by every front end: an ordered table whose
 * keys are matched as substrings of a hostname or URL, the first match winning.
 * content-llm.js keys its selector lists this way, renderer.js and App.tsx their
 * LLM configurations.
 */
module Registry {
  import opened Wrappers
  import opened Text

  datatype Entry<T> = Entry(key: string, value: T)

  /** `k` is the position of the first entry whose key occurs in `s`. */
  ghost predicate IsFirstMatch<T>(table: seq<Entry<T>>, s: string, k: int) {
    && 0 <= k < |table|
    && Includes(s, table[k].key)
    && forall j :: 0 <= j < k ==> !Includes(s, table[j].key)
  }

  /** No key of the table occurs in `s`. */
  ghost predicate NoMatch<T>(table: seq<Entry<T>>, s: string) {
    forall j :: 0 <= j < |table| ==> !Includes(s, table[j].key)
  }

  /** The position of the first entry whose key occurs in `s`, if any. */
  function FirstMatch<T>(table: seq<Entry<T>>, s: string): (r: Option<nat>)
    ensures r.Some? ==> IsFirstMatch(table, s, r.value)
    ensures r.None? ==> NoMatch(table, s)
  {
    if table == [] then None
    else if Includes(s, table[0].key) then Some(0)
    else
      match FirstMatch(table[1..], s)
      case None => None
      case Some(k) => Some(k + 1)
  }

  /** The table scan of the source: try the entries in order, stop at the first key `s` includes. */
  method FindFirst<T>(table: seq<Entry<T>>, s: string) returns (r: Option<nat>)
    ensures r == FirstMatch(table, s)
  {
    var i := 0;
    while i < |table|
      invariant 0 <= i <= |table|
      invariant forall j :: 0 <= j < i ==> !Includes(s, table[j].key)
    {
      if Includes(s, table[i].key) {
        return Some(i);
      }
      i := i + 1;
    }
    return None;
  }

  /**
   * Adding a provider means appending an entry: a lookup that already matched is
   * unaffected, and one that did not now tries the new entries.
   */
  lemma {:induction false} AppendKeepsLookup<T>(table: seq<Entry<T>>, more: seq<Entry<T>>, s: string)
    ensures FirstMatch(table + more, s) ==
      match FirstMatch(table, s)
      case Some(k) => Some(k)
      case None =>
        match FirstMatch(more, s)
        case Some(k) => Some(|table| + k)
        case None => None
  {
    if table == [] {
      assert table + more == more;
    } else {
      assert (table + more)[0] == table[0];
      assert (table + more)[1..] == table[1..] + more;
      AppendKeepsLookup(table[1..], more, s);
    }
  }
}
