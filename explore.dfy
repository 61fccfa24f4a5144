/**
 * The "Explore" section of the share dashboard
 * (my-new-project/components/ShareDashboard.js): the company categories fetched
 * once, and at most one category opened at a time.
 */
module Explore {
  import opened Wrappers
  import opened Backend

  const FetchFailed: string := "Failed to fetch data."
  const FetchError: string := "An error occurred while fetching data."

  datatype Company = Company(companyName: string, tickerSymbol: string, information: string)

  /** One entry of `Object.entries(data.categories)`: a category name and its companies. */
  datatype Category = Category(name: string, companies: seq<Company>)

  /** The body of an `/explore` answer; `categories` may be missing. */
  datatype ExploreBody = ExploreBody(categories: Option<seq<Category>>)

  /** What the section shows. */
  datatype View = Loading | ErrorText(text: string) | CategoryList(categories: seq<Category>)

  /** `expandedCategory === name ? null : name` */
  function ToggledCategory(current: Option<string>, name: string): (r: Option<string>)
    ensures r.None? <==> current == Some(name)
    ensures r.Some? ==> r.value == name
  {
    if current == Some(name) then None else Some(name)
  }

  /** Opening another category closes the open one; pressing it again closes it. */
  lemma OpenAnotherThenClose(a: string, b: string)
    requires a != b
    ensures ToggledCategory(ToggledCategory(Some(a), b), b) == None
    ensures ToggledCategory(Some(a), b) == Some(b)
  {
  }

  class ExploreCompanies {
    var categories: seq<Category>
    var expandedCategory: Option<string>
    var loading: bool
    var error: Option<string>

    constructor ()
      ensures categories == [] && expandedCategory == None && loading && error == None
    {
      categories := [];
      expandedCategory := None;
      loading := true;
      error := None;
    }

    /** `expandedCategory === name`: true of at most one name at any time. */
    predicate IsExpanded(name: string)
      reads this
    {
      expandedCategory == Some(name)
    }

    /** The effect that fetches `/explore`; loading ends whatever the answer. */
    method Load(response: Response<ExploreBody>)
      modifies this
      ensures !loading && expandedCategory == old(expandedCategory)
      ensures response.Ok? && response.data.categories.Some? ==>
        categories == response.data.categories.value && error == old(error)
      ensures response.Ok? && response.data.categories.None? ==> categories == old(categories) && error == Some(FetchFailed)
      ensures response.Rejected? ==> categories == old(categories) && error == Some(FetchFailed)
      ensures response.Unreachable? ==> categories == old(categories) && error == Some(FetchError)
    {
      match response {
        case Ok(body) =>
          if body.categories.Some? {
            categories := body.categories.value;
          } else {
            error := Some(FetchFailed);
          }
        // The status is not checked: a failure body has no `categories` field.
        case Rejected(_) => error := Some(FetchFailed);
        case Unreachable => error := Some(FetchError);
      }
      loading := false;
    }

    method ToggleCategory(name: string)
      modifies this
      ensures expandedCategory == ToggledCategory(old(expandedCategory), name)
      ensures categories == old(categories) && loading == old(loading) && error == old(error)
    {
      expandedCategory := if expandedCategory == Some(name) then None else Some(name);
    }

    /** The loading text, then the error text if there is one, otherwise the category list. */
    function Shown(): (v: View)
      reads this
      ensures v.Loading? <==> loading
      ensures !loading && error.Some? ==> v == ErrorText(error.value)
      ensures !loading && error.None? ==> v == CategoryList(categories)
    {
      if loading then Loading
      else if error.Some? then ErrorText(error.value)
      else CategoryList(categories)
    }
  }
}
