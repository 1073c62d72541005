/** The search bar (components/search-bar.tsx): the initial query taken
    from the URL, the URL parameters a submit builds, and clearing the
    filters. Rendering, toasts and routing are left out; a submit returns
    the parameters it would navigate to. */
module SearchBar {
  import opened Wrappers
  import opened Text
  import opened Types

  /** One `name=value` pair of a URL query string. */
  datatype Param = Param(name: string, value: string)

  /** `params.get(name)`: the first value under `name`, or null. */
  function Get(params: seq<Param>, name: string): (r: Option<string>)
    ensures r.Some? <==> exists i :: 0 <= i < |params| && params[i].name == name
    ensures r.Some? ==> Param(name, r.value) in params
    decreases |params|
  {
    if params == [] then None
    else if params[0].name == name then Some(params[0].value)
    else
      assert forall i :: 1 <= i < |params| ==> params[i] == params[1..][i - 1];
      Get(params[1..], name)
  }

  /** `params.set(name, value)`: replaces the first pair under `name` and
      drops the others, or appends one. */
  function Set(params: seq<Param>, name: string, value: string): (r: seq<Param>)
    ensures Get(r, name) == Some(value)
    ensures forall n :: n != name ==> Get(r, n) == Get(params, n)
    decreases |params|
  {
    if params == [] then [Param(name, value)]
    else if params[0].name == name then [Param(name, value)] + Drop(params[1..], name)
    else [params[0]] + Set(params[1..], name, value)
  }

  /** The pairs not under `name`. */
  function Drop(params: seq<Param>, name: string): (r: seq<Param>)
    ensures Get(r, name) == None
    ensures forall n :: n != name ==> Get(r, n) == Get(params, n)
    decreases |params|
  {
    if params == [] then []
    else if params[0].name == name then Drop(params[1..], name)
    else [params[0]] + Drop(params[1..], name)
  }

  /** `/^[a-zA-Z]$/.test(query)` together with `query.length === 1`, on the
      untrimmed query. */
  predicate SingleLetter(query: string) {
    |query| == 1 && IsAsciiLetter(query[0])
  }

  /** `if (value) params.set(name, value)`. */
  function SetIfTruthy(params: seq<Param>, name: string, value: Option<string>): (r: seq<Param>)
    ensures Get(r, name) == if Truthy(value) then value else Get(params, name)
    ensures forall n :: n != name ==> Get(r, n) == Get(params, n)
  {
    if Truthy(value) then Set(params, name, value.value) else params
  }

  /** The search parameter alone: `letter` for a single letter, else `q`. */
  function SearchParam(query: string): (r: seq<Param>)
    ensures SingleLetter(query) ==> Get(r, "letter") == Some(Lower(query)) && Get(r, "q") == None
    ensures !SingleLetter(query) ==> Get(r, "q") == Some(Trim(query)) && Get(r, "letter") == None
    ensures Get(r, "dietary") == None && Get(r, "method") == None
  {
    if SingleLetter(query) then [Param("letter", Lower(query))] else [Param("q", Trim(query))]
  }

  /** The parameters a submit navigates to, or `None` when the trimmed
      query is empty and there is no navigation. */
  function SubmitParams(query: string, dietary: Option<string>, cookingMethod: Option<string>): Option<seq<Param>> {
    if Trim(query) == "" then None
    else Some(SetIfTruthy(SetIfTruthy(SearchParam(query), "dietary", dietary), "method", cookingMethod))
  }

  /** `searchParams.get("q") || searchParams.get("letter") || ""`. */
  function InitialQuery(url: seq<Param>): string {
    OrDefault(Get(url, "q"), OrDefault(Get(url, "letter"), ""))
  }

  /** A submit navigates exactly when the query is not blank. A single
      ASCII letter (untrimmed) becomes `letter`, lower-cased, and no `q`;
      anything else becomes `q`, trimmed, and no `letter`. `dietary` and
      `method` are present exactly when the filter is set, with its value. */
  lemma SubmitParamsSpec(query: string, dietary: Option<string>, cookingMethod: Option<string>)
    ensures SubmitParams(query, dietary, cookingMethod).None? <==> Blank(query)
    ensures var p := SubmitParams(query, dietary, cookingMethod);
      p.Some? ==>
        (SingleLetter(query) ==> Get(p.value, "letter") == Some(Lower(query)) && Get(p.value, "q") == None) &&
        (!SingleLetter(query) ==> Get(p.value, "q") == Some(Trim(query)) && Get(p.value, "letter") == None) &&
        Get(p.value, "dietary") == (if Truthy(dietary) then dietary else None) &&
        Get(p.value, "method") == (if Truthy(cookingMethod) then cookingMethod else None)
  {
    TrimEmptyIffBlank(query);
    var p1 := SetIfTruthy(SearchParam(query), "dietary", dietary);
    var p2 := SetIfTruthy(p1, "method", cookingMethod);
    assert Get(p2, "letter") == Get(p1, "letter") == Get(SearchParam(query), "letter");
    assert Get(p2, "q") == Get(p1, "q") == Get(SearchParam(query), "q");
    assert Get(p2, "dietary") == Get(p1, "dietary");
  }

  /** " a" is a query, not a letter search: the letter test runs before
      trimming. */
  lemma PaddedLetterIsQuery()
    ensures SubmitParams(" a", None, None) == Some([Param("q", "a")])
  {
    assert Trim(" a") == Trim(" a"[1..]);
    assert " a"[1..] == "a";
    TrimOfTrimmed("a");
  }

  /** Navigating and reading the URL back gives the search bar the query it
      submitted, lower-cased for a letter and trimmed otherwise, and the
      same filters. */
  lemma SubmitRoundTrip(query: string, dietary: Option<string>, cookingMethod: Option<string>)
    requires !Blank(query)
    ensures SubmitParams(query, dietary, cookingMethod).Some?
    ensures var p := SubmitParams(query, dietary, cookingMethod).value;
      InitialQuery(p) == (if SingleLetter(query) then Lower(query) else Trim(query)) &&
      (Truthy(dietary) ==> Get(p, "dietary") == dietary) &&
      (Truthy(cookingMethod) ==> Get(p, "method") == cookingMethod)
  {
    SubmitParamsSpec(query, dietary, cookingMethod);
    TrimEmptyIffBlank(query);
  }

  /** The search bar's state. */
  class SearchBarState {
    var query: string
    var dietary: Option<string>
    var cookingMethod: Option<string>
    var showFilters: bool
    var isLoading: bool

    /** The initial state read from the URL. */
    constructor (url: seq<Param>)
      ensures query == InitialQuery(url)
      ensures dietary == Get(url, "dietary") && cookingMethod == Get(url, "method")
      ensures !showFilters && !isLoading
    {
      query := InitialQuery(url);
      dietary := Get(url, "dietary");
      cookingMethod := Get(url, "method");
      showFilters := false;
      isLoading := false;
    }

    /** `handleSubmit`: the parameters navigated to, or `None` (blank query,
        nothing else happens). `isLoading` is reset in `finally`. */
    method HandleSubmit() returns (navigated: Option<seq<Param>>)
      modifies this
      ensures navigated == SubmitParams(old(query), old(dietary), old(cookingMethod))
      ensures query == old(query) && dietary == old(dietary) && cookingMethod == old(cookingMethod)
      ensures showFilters == old(showFilters)
      ensures isLoading == if navigated.None? then old(isLoading) else false
    {
      if Trim(query) == "" {
        return None;
      }
      isLoading := true;
      var params: seq<Param>;
      if |query| == 1 && IsAsciiLetter(query[0]) {
        params := [Param("letter", Lower(query))];
      } else {
        params := [Param("q", Trim(query))];
      }
      if Truthy(dietary) {
        params := Set(params, "dietary", dietary.value);
      }
      if Truthy(cookingMethod) {
        params := Set(params, "method", cookingMethod.value);
      }
      navigated := Some(params);
      isLoading := false;
    }

    /** `clearFilters`: both filters null and the popover closed; the query
        is kept. */
    method ClearFilters()
      modifies this
      ensures dietary == None && cookingMethod == None && !showFilters
      ensures query == old(query) && isLoading == old(isLoading)
    {
      dietary := None;
      cookingMethod := None;
      showFilters := false;
    }
  }
}
