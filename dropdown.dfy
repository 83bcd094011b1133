/**
 * The search box of `CustomDropdown` (app/createTask.tsx, repeated verbatim in
 * app/dailyActivities.tsx): which items stay visible for a typed query.
 */
module Dropdown {
  import opened Js

  /** One dropdown entry `{label, value}`; `label` is a reserved word here, so the field is `caption`. */
  datatype Choice = Choice(caption: string, value: string)

  /** Some space-separated word starts with the query. */
  predicate SomeWordStartsWith(words: seq<string>, query: string) {
    exists i :: 0 <= i < |words| && query <= words[i]
  }

  /**
   * An item is visible when the lowercased, trimmed query is empty, occurs in
   * the lowercased label, or starts one of the label's space-separated words.
   */
  predicate Matches(searchText: string, caption: string) {
    var query := Trim(Lower(searchText));
    var text := Lower(caption);
    query == "" || Contains(text, query) || SomeWordStartsWith(Split(text, ' '), query)
  }

  /** The visible items of a searchable dropdown, in their original order. */
  function Visible(items: seq<Choice>, searchText: string): (r: seq<Choice>)
    ensures IsSubsequence(r, items)
    ensures forall x :: x in r <==> x in items && Matches(searchText, x.caption)
    ensures forall x :: multiset(r)[x] == if Matches(searchText, x.caption) then multiset(items)[x] else 0
  {
    if items == [] then []
    else
      assert items == [items[0]] + items[1..];
      if Matches(searchText, items[0].caption) then [items[0]] + Visible(items[1..], searchText)
      else Visible(items[1..], searchText)
  }

  /** `filteredItems`: a non-searchable dropdown shows every item. */
  function FilteredItems(items: seq<Choice>, searchText: string, searchable: bool): (r: seq<Choice>)
    ensures !searchable ==> r == items
    ensures searchable ==> r == Visible(items, searchText)
    ensures searchable ==> forall x :: x in r <==> x in items && Matches(searchText, x.caption)
  {
    if searchable then Visible(items, searchText) else items
  }

  /** A query that is blank after trimming keeps every item, in order. */
  lemma {:induction false} BlankQueryKeepsAll(items: seq<Choice>, searchText: string)
    requires Trim(Lower(searchText)) == ""
    ensures Visible(items, searchText) == items
  {
    if items != [] {
      assert Matches(searchText, items[0].caption);
      BlankQueryKeepsAll(items[1..], searchText);
    }
  }

  /**
   * The word-prefix test never widens the filter: a word of the label is part of
   * the label, so an item matches exactly when the query occurs in its label.
   */
  lemma MatchesIsSubstring(searchText: string, caption: string)
    ensures Matches(searchText, caption) <==> Contains(Lower(caption), Trim(Lower(searchText)))
  {
    var query := Trim(Lower(searchText));
    var text := Lower(caption);
    var words := Split(text, ' ');
    if query == "" {
      assert OccursAt(text, query, 0);
    }
    if SomeWordStartsWith(words, query) {
      var i :| 0 <= i < |words| && query <= words[i];
      SplitPartOccurs(text, ' ', i);
      PrefixIsContained(words[i], query);
      ContainsTrans(text, words[i], query);
    }
  }
}
