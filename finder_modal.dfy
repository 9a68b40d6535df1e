/**
 * The investor-finder dialog (components/investors/InvestorFinderModal.tsx):
 * its state (the requested count, criteria, geography, the `searching` and
 * `adding` flags and the result list with a `selected` flag per entry), the
 * count check before a search, selecting and deselecting results, adding the
 * selected ones, and the reset on close.
 *
 * The two asynchronous handlers are split at their `await`: `StartSearch`
 * and `StartAdd` run up to the request, `FinishSearch` and `FinishAdd` run
 * when the answer is in, so that a close in between sees the busy flag. The
 * requests the dialog sends are recorded in order.
 */
module FinderModal {
  import opened Wrappers
  import opened Text
  import opened Domain

  /** One suggested investor in the result list. */
  datatype Match = Match(name: string, firm: string, title: string, linkedinUrl: Option<string>,
                         twitterUrl: Option<string>, reasoning: string, matchScore: int, selected: bool)

  /** The search request body: `count` is None where `parseInt` gives NaN (sent as null). */
  datatype SearchRequest = SearchRequest(count: Option<int>, criteria: Option<string>, geography: Option<string>)

  /** The body of one add-investor request. */
  datatype AddRequest = AddRequest(name: string, firm: string, title: string, linkedinUrl: Option<string>,
                                   twitterUrl: Option<string>, source: InvestorSource)

  const DefaultCount: string := "5"

  /**
   * `!count || parseInt(count) < 1`: an empty count, or one that parses to
   * a number below 1, is refused. A count `parseInt` cannot read (NaN) is not.
   */
  predicate SearchRefused(count: string)
  {
    count == "" || (ParseInt(count).Some? && ParseInt(count).value < 1)
  }

  /** `s || undefined`: an empty text is left out of the request. */
  function OrUndefined(s: string): (r: Option<string>)
    ensures r.None? <==> s == []
    ensures r.Some? ==> r.value == s
  {
    if s == "" then None else Some(s)
  }

  /** Every whole number from 1 up passes the count check, and 0 and below are refused. */
  lemma SearchRefusedForNumbers(n: int)
    ensures SearchRefused(IntToString(n)) <==> n < 1
  {
    ParseIntOfIntToString(n);
    assert IntToString(n) != "" by {
      if n < 0 { assert IntToString(n)[0] == '-'; } else { assert |NatToString(n)| > 0; }
    }
  }

  /** The choices the dialog offers all pass the count check. */
  lemma OfferedCountsAccepted()
    ensures !SearchRefused("3") && !SearchRefused("5") && !SearchRefused("10") && !SearchRefused("15")
  {
    OfferedCountsSpelled();
    SearchRefusedForNumbers(3);
    SearchRefusedForNumbers(5);
    SearchRefusedForNumbers(10);
    SearchRefusedForNumbers(15);
  }

  lemma OfferedCountsSpelled()
    ensures IntToString(3) == "3" && IntToString(5) == "5" && IntToString(10) == "10" && IntToString(15) == "15"
  {
    assert NatToString(10) == NatToString(1) + [DigitChar(0)];
    assert NatToString(15) == NatToString(1) + [DigitChar(5)];
  }

  /** A count `parseInt` cannot read gives NaN, which is not below 1, so the check lets it through. */
  lemma UnreadableCountPasses()
    ensures ParseInt("many") == None && !SearchRefused("many")
  {
    assert TrimStart("many") == "many" by { assert !IsJsWhitespace('m'); }
    assert LeadingDigits("many", false) == [];
  }

  /** The result list as shown after a search: every entry selected. */
  function MarkAllSelected(found: seq<Match>): (r: seq<Match>)
    ensures |r| == |found|
    ensures forall i :: 0 <= i < |r| ==> r[i] == found[i].(selected := true)
  {
    seq(|found|, i requires 0 <= i < |found| => found[i].(selected := true))
  }

  /**
   * `toggleSelection(index)`: the entry at `index` has its flag flipped,
   * every other entry is left as it is; an index outside the list changes
   * nothing.
   */
  function Toggle(results: seq<Match>, index: int): (r: seq<Match>)
    ensures |r| == |results|
    ensures forall i :: 0 <= i < |r| && i != index ==> r[i] == results[i]
    ensures 0 <= index < |results| ==> r[index] == results[index].(selected := !results[index].selected)
  {
    seq(|results|, i requires 0 <= i < |results| =>
      if i == index then results[i].(selected := !results[i].selected) else results[i])
  }

  /** `results.filter(inv => inv.selected)`. */
  function Selected(results: seq<Match>): (r: seq<Match>)
    ensures |r| <= |results|
    ensures forall i :: 0 <= i < |r| ==> r[i].selected && r[i] in results
  {
    if results == [] then []
    else if results[0].selected then [results[0]] + Selected(results[1..])
    else Selected(results[1..])
  }

  /** The add request for one selected investor, marked as found by the AI. */
  function AddRequestFor(m: Match): AddRequest
  {
    AddRequest(m.name, m.firm, m.title, m.linkedinUrl, m.twitterUrl, AiFound)
  }

  /** One add request per selected investor, in order, each with source `ai_found`. */
  function AddRequests(selected: seq<Match>): (r: seq<AddRequest>)
    ensures |r| == |selected|
    ensures forall i :: 0 <= i < |r| ==>
      r[i].source == AiFound && r[i].name == selected[i].name && r[i].firm == selected[i].firm && r[i].title == selected[i].title
      && r[i].linkedinUrl == selected[i].linkedinUrl && r[i].twitterUrl == selected[i].twitterUrl
  {
    seq(|selected|, i requires 0 <= i < |selected| => AddRequestFor(selected[i]))
  }

  // ---------------------------------------------------------------------------
  // Properties of the selection list.

  /** Toggling the same entry twice gives the list back. */
  lemma ToggleTwice(results: seq<Match>, index: int)
    ensures Toggle(Toggle(results, index), index) == results
  {
  }

  /** Right after a search nothing is deselected: the filter keeps every result. */
  lemma {:induction false} AllSelectedAfterSearch(found: seq<Match>)
    ensures Selected(MarkAllSelected(found)) == MarkAllSelected(found)
    decreases |found|
  {
    if found != [] {
      assert MarkAllSelected(found)[1..] == MarkAllSelected(found[1..]);
      AllSelectedAfterSearch(found[1..]);
    }
  }

  /** Toggling an entry changes the number selected by exactly one, in the direction of its new flag. */
  lemma {:induction false} ToggleChangesCountByOne(results: seq<Match>, index: int)
    requires 0 <= index < |results|
    ensures |Selected(Toggle(results, index))|
      == if results[index].selected then |Selected(results)| - 1 else |Selected(results)| + 1
    decreases |results|
  {
    var t := Toggle(results, index);
    if index == 0 {
      assert t[1..] == results[1..];
    } else {
      assert t[1..] == Toggle(results[1..], index - 1);
      ToggleChangesCountByOne(results[1..], index - 1);
    }
  }

  /** The filter keeps exactly the selected entries: an entry is in it if and only if it is a result and selected. */
  lemma {:induction false} SelectedMembers(results: seq<Match>, m: Match)
    ensures m in Selected(results) <==> m in results && m.selected
    decreases |results|
  {
    if results != [] {
      SelectedMembers(results[1..], m);
      assert m in results <==> m == results[0] || m in results[1..];
    }
  }

  // ---------------------------------------------------------------------------
  // The dialog.

  class Modal {
    var count: string
    var criteria: string
    var geography: string
    var searching: bool
    var results: seq<Match>
    var adding: bool
    /** The search requests sent, in order. */
    var searchRequests: seq<SearchRequest>
    /** The add-investor requests sent, in order. */
    var addRequests: seq<AddRequest>
    /** How many times the dialog asked its parent to close it. */
    var closeCalls: nat

    /** The dialog's initial state. */
    constructor()
      ensures count == DefaultCount && criteria == "" && geography == ""
      ensures !searching && !adding && results == []
      ensures searchRequests == [] && addRequests == [] && closeCalls == 0
    {
      count := DefaultCount;
      criteria := "";
      geography := "";
      searching := false;
      results := [];
      adding := false;
      searchRequests := [];
      addRequests := [];
      closeCalls := 0;
    }

    /** Typing into the count, criteria or geography field. */
    method Edit(newCount: string, newCriteria: string, newGeography: string)
      modifies this
      ensures count == newCount && criteria == newCriteria && geography == newGeography
      ensures searching == old(searching) && adding == old(adding) && results == old(results)
      ensures searchRequests == old(searchRequests) && addRequests == old(addRequests) && closeCalls == old(closeCalls)
    {
      count, criteria, geography := newCount, newCriteria, newGeography;
    }

    /**
     * `handleSearch` up to the request: a refused count changes nothing;
     * otherwise the dialog is marked searching and one request is sent with
     * the parsed count and the non-empty criteria and geography.
     */
    method StartSearch() returns (started: bool)
      modifies this
      ensures started <==> !SearchRefused(old(count))
      ensures !started ==> searching == old(searching) && searchRequests == old(searchRequests)
      ensures started ==>
        searching && searchRequests == old(searchRequests) + [SearchRequest(ParseInt(count), OrUndefined(criteria), OrUndefined(geography))]
      ensures count == old(count) && criteria == old(criteria) && geography == old(geography)
      ensures results == old(results) && adding == old(adding)
      ensures addRequests == old(addRequests) && closeCalls == old(closeCalls)
    {
      if SearchRefused(count) {
        return false;
      }
      var request := SearchRequest(ParseInt(count), OrUndefined(criteria), OrUndefined(geography));
      searching := true;
      searchRequests := searchRequests + [request];
      return true;
    }

    /**
     * `handleSearch` after the answer: the investors found (None when the
     * request failed) replace the list, all selected; either way the dialog
     * is no longer searching.
     */
    method FinishSearch(found: Option<seq<Match>>)
      modifies this
      ensures !searching
      ensures results == if found.Some? then MarkAllSelected(found.value) else old(results)
      ensures count == old(count) && criteria == old(criteria) && geography == old(geography)
      ensures adding == old(adding) && searchRequests == old(searchRequests)
      ensures addRequests == old(addRequests) && closeCalls == old(closeCalls)
    {
      if found.Some? {
        results := MarkAllSelected(found.value);
      }
      searching := false;
    }

    /** `toggleSelection(index)`. */
    method ToggleSelection(index: int)
      modifies this
      ensures results == Toggle(old(results), index)
      ensures count == old(count) && criteria == old(criteria) && geography == old(geography)
      ensures searching == old(searching) && adding == old(adding)
      ensures searchRequests == old(searchRequests) && addRequests == old(addRequests) && closeCalls == old(closeCalls)
    {
      results := Toggle(results, index);
    }

    /**
     * `handleAddSelected` up to the requests: with nothing selected nothing
     * happens; otherwise the dialog is marked adding and one request per
     * selected investor is sent.
     */
    method StartAdd() returns (started: bool)
      modifies this
      ensures started <==> Selected(old(results)) != []
      ensures !started ==> adding == old(adding) && addRequests == old(addRequests)
      ensures started ==> adding && addRequests == old(addRequests) + AddRequests(Selected(results))
      ensures count == old(count) && criteria == old(criteria) && geography == old(geography)
      ensures results == old(results) && searching == old(searching)
      ensures searchRequests == old(searchRequests) && closeCalls == old(closeCalls)
    {
      var selected := Selected(results);
      if |selected| == 0 {
        return false;
      }
      adding := true;
      addRequests := addRequests + AddRequests(selected);
      return true;
    }

    /** `handleAddSelected` after the answers: when all succeeded the dialog asks to be closed; either way it is no longer adding. */
    method FinishAdd(allAdded: bool)
      modifies this
      ensures !adding
      ensures closeCalls == if allAdded then old(closeCalls) + 1 else old(closeCalls)
      ensures count == old(count) && criteria == old(criteria) && geography == old(geography)
      ensures results == old(results) && searching == old(searching)
      ensures searchRequests == old(searchRequests) && addRequests == old(addRequests)
    {
      if allAdded {
        closeCalls := closeCalls + 1;
      }
      adding := false;
    }

    /**
     * `handleClose`: ignored while a search or an add is under way; otherwise
     * the list is emptied, criteria and geography cleared, the count reset
     * to "5" and the parent asked to close the dialog.
     */
    method HandleClose()
      modifies this
      ensures old(searching) || old(adding) ==>
        count == old(count) && criteria == old(criteria) && geography == old(geography)
        && results == old(results) && closeCalls == old(closeCalls)
      ensures !old(searching) && !old(adding) ==>
        count == DefaultCount && criteria == "" && geography == "" && results == []
        && closeCalls == old(closeCalls) + 1
      ensures searching == old(searching) && adding == old(adding)
      ensures searchRequests == old(searchRequests) && addRequests == old(addRequests)
    {
      if !searching && !adding {
        results := [];
        criteria := "";
        geography := "";
        count := DefaultCount;
        closeCalls := closeCalls + 1;
      }
    }
  }
}
