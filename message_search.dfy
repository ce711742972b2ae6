/** The message search box of the client (MessageSearch.jsx): up to ten
    user messages whose text contains the typed term, ignoring ASCII case,
    and a keyboard cursor over them. */
module MessageSearch {
  import opened Text
  import opened ChatTypes
  import opened Sequences

  const MaxResults: nat := 10

  /** A message the search can show for the lower-cased term `term`. */
  predicate Matches(term: string, m: ChatMessage) {
    m.kind == "user" && Contains(ToLower(m.message), term)
  }

  /** Every user message containing the lower-cased term, in list order. */
  function Hits(messages: seq<ChatMessage>, searchTerm: string): (r: seq<ChatMessage>)
    ensures forall i :: 0 <= i < |r| ==> Matches(ToLower(searchTerm), r[i])
  {
    Filter(messages, x => Matches(ToLower(searchTerm), x))
  }

  /** `filteredMessages`. A blank term finds nothing; any other term is
      lower-cased, but not trimmed, before matching. */
  function SearchResults(messages: seq<ChatMessage>, searchTerm: string): (r: seq<ChatMessage>)
    ensures Trim(searchTerm) == [] ==> r == []
    ensures |r| <= MaxResults
    ensures Trim(searchTerm) != [] ==>
      r <= Hits(messages, searchTerm) && |r| == Min(|Hits(messages, searchTerm)|, MaxResults)
    ensures forall i :: 0 <= i < |r| ==>
      r[i].kind == "user" && Contains(ToLower(r[i].message), ToLower(searchTerm))
  {
    if Trim(searchTerm) == [] then []
    else
      Take(Hits(messages, searchTerm), MaxResults)
  }

  /** The results are exactly the first ten matches in the order of the
      list, and all of them when there are at most ten. */
  lemma SearchResultsArePrefix(messages: seq<ChatMessage>, searchTerm: string)
    requires Trim(searchTerm) != []
    ensures var all := Hits(messages, searchTerm);
      SearchResults(messages, searchTerm) == all[..Min(|all|, MaxResults)]
      && (|all| <= MaxResults ==> SearchResults(messages, searchTerm) == all)
      && (|all| > MaxResults ==> |SearchResults(messages, searchTerm)| == MaxResults)
  {
  }

  /** A blank term, however long, finds nothing. */
  lemma BlankTermFindsNothing(messages: seq<ChatMessage>, searchTerm: string)
    requires AllWhitespace(searchTerm)
    ensures SearchResults(messages, searchTerm) == []
  {
    TrimEmptyIffBlank(searchTerm);
  }

  /** With fewer than ten matches, every matching message is found. */
  lemma SearchIsComplete(messages: seq<ChatMessage>, searchTerm: string, m: ChatMessage)
    requires Trim(searchTerm) != []
    requires |Hits(messages, searchTerm)| <= MaxResults
    requires m in messages && m.kind == "user" && Contains(ToLower(m.message), ToLower(searchTerm))
    ensures m in SearchResults(messages, searchTerm)
  {
    FilterMembers(messages, x => Matches(ToLower(searchTerm), x), m);
  }

  /** ArrowDown: one step further, but never past the last result. */
  function NextIndexDown(index: int, count: int): int {
    if index < count - 1 then index + 1 else index
  }

  /** ArrowUp: one step back, but never before the first. */
  function NextIndexUp(index: int): int {
    if index > 0 then index - 1 else index
  }

  /** Each arrow moves the cursor by one unless that would leave the
      results; a cursor on a result stays on one, and with no results
      ArrowDown does not move it. */
  lemma CursorStaysInRange(index: int, count: int)
    ensures 0 <= index < count ==> 0 <= NextIndexDown(index, count) < count && 0 <= NextIndexUp(index) < count
    ensures NextIndexDown(index, count) == index + 1 || (NextIndexDown(index, count) == index && index >= count - 1)
    ensures NextIndexUp(index) == index - 1 || (NextIndexUp(index) == index && index <= 0)
    ensures index >= 0 ==> NextIndexDown(index, count) >= 0 && NextIndexUp(index) >= 0
    ensures count == 0 && index >= 0 ==> NextIndexDown(index, count) == index
  {
  }

  /** What a key does beyond moving the cursor. */
  datatype KeyAction =
    | NoAction
    | Close
    | SelectAndClose(selected: Option<ChatMessage>)  // None: the cursor is past the results

  class SearchBox {
    var searchTerm: string
    var selectedIndex: int

    constructor ()
      ensures searchTerm == "" && selectedIndex == 0
    {
      searchTerm := "";
      selectedIndex := 0;
    }

    /** The input's onChange: the new term, and the cursor back on the first result. */
    method OnChange(value: string)
      modifies this
      ensures searchTerm == value && selectedIndex == 0
    {
      searchTerm := value;
      selectedIndex := 0;
    }

    /** `handleKeyDown`, over the messages the box is given. */
    method KeyDown(key: string, messages: seq<ChatMessage>) returns (action: KeyAction)
      modifies this
      ensures var results := SearchResults(messages, searchTerm);
        if key == "Escape" then action == Close && selectedIndex == old(selectedIndex)
        else if key == "ArrowDown" then action == NoAction && selectedIndex == NextIndexDown(old(selectedIndex), |results|)
        else if key == "ArrowUp" then action == NoAction && selectedIndex == NextIndexUp(old(selectedIndex))
        else if key == "Enter" && |results| > 0 then
          selectedIndex == old(selectedIndex)
          && action == SelectAndClose(if 0 <= selectedIndex < |results| then Some(results[selectedIndex]) else None)
        else action == NoAction && selectedIndex == old(selectedIndex)
      ensures searchTerm == old(searchTerm)
    {
      var results := SearchResults(messages, searchTerm);
      if key == "Escape" {
        action := Close;
      } else if key == "ArrowDown" {
        selectedIndex := NextIndexDown(selectedIndex, |results|);
        action := NoAction;
      } else if key == "ArrowUp" {
        selectedIndex := NextIndexUp(selectedIndex);
        action := NoAction;
      } else if key == "Enter" && |results| > 0 {
        action := SelectAndClose(if 0 <= selectedIndex < |results| then Some(results[selectedIndex]) else None);
      } else {
        action := NoAction;
      }
    }
  }
}
