/**
 * The option lists behind the social-platform and LLM menus of App.tsx and
 * sidepanel.js: `{ value, label, url }` records looked up with `Array.find`.
 */
module Menu {
  import opened Wrappers

  datatype MenuOption = MenuOption(value: string, caption: string, url: string)

  /** `options.find(o => o.value === value)`: the first option with that value. */
  function FindOption(options: seq<MenuOption>, value: string): (found: Option<MenuOption>)
    ensures found.Some? ==> found.value in options && found.value.value == value
    ensures found.None? ==> forall j :: 0 <= j < |options| ==> options[j].value != value
    ensures options != [] && options[0].value == value ==> found == Some(options[0])
  {
    if options == [] then None
    else if options[0].value == value then Some(options[0])
    else FindOption(options[1..], value)
  }

  /** `options.find(o => o.url === url)`: the first option with that address. */
  function FindByUrl(options: seq<MenuOption>, url: string): (found: Option<MenuOption>)
    ensures found.Some? ==> found.value in options && found.value.url == url
    ensures found.None? ==> forall j :: 0 <= j < |options| ==> options[j].url != url
  {
    if options == [] then None
    else if options[0].url == url then Some(options[0])
    else FindByUrl(options[1..], url)
  }

  /** `find` by value returns the option at the first position carrying the value. */
  lemma {:induction false} FindOptionIsFirst(options: seq<MenuOption>, value: string, k: int)
    requires 0 <= k < |options| && options[k].value == value
    requires forall j :: 0 <= j < k ==> options[j].value != value
    ensures FindOption(options, value) == Some(options[k])
  {
    if k > 0 {
      FindOptionIsFirst(options[1..], value, k - 1);
    }
  }

  /** `find` by address returns the option at the first position carrying the address. */
  lemma {:induction false} FindByUrlIsFirst(options: seq<MenuOption>, url: string, k: int)
    requires 0 <= k < |options| && options[k].url == url
    requires forall j :: 0 <= j < k ==> options[j].url != url
    ensures FindByUrl(options, url) == Some(options[k])
  {
    if k > 0 {
      FindByUrlIsFirst(options[1..], url, k - 1);
    }
  }

  /** The options' `selected` flags for a value: exactly the options carrying that value. */
  function Selection(options: seq<MenuOption>, value: string): (flags: seq<bool>)
    ensures |flags| == |options|
    ensures forall i :: 0 <= i < |options| ==> (flags[i] <==> options[i].value == value)
  {
    seq(|options|, i requires 0 <= i < |options| => options[i].value == value)
  }

  /** No two options share a value. */
  ghost predicate DistinctValues(options: seq<MenuOption>) {
    forall i, j :: 0 <= i < j < |options| ==> options[i].value != options[j].value
  }

  /** With distinct values, selecting an option's value marks that option and no other. */
  lemma SelectionMarksOne(options: seq<MenuOption>, k: int)
    requires DistinctValues(options) && 0 <= k < |options|
    ensures forall i :: 0 <= i < |options| ==> (Selection(options, options[k].value)[i] <==> i == k)
  {
  }
}
