/** The studio screen's chat box: the text being typed, the list of sent messages that the
    arrow keys recall, the position in that list, the conversation shown, and the flag that
    blocks sending while a reply is awaited. The request that `sendMessage` goes on to make,
    and what its reply does to the screen, are not part of this model. */
module ChatPanel {
  import opened Wrappers
  import opened Js
  import opened Paging

  datatype Key = ArrowUp | ArrowDown | OtherKey

  datatype ChatMessage = ChatMessage(role: string, content: string)

  /** How many sent messages are kept for the next visit. */
  const PersistedCount: nat := 50

  /** Recall position k (0 = the last message sent) shows entry |h| - 1 - k. */
  function Recalled(h: seq<string>, k: int): (s: string)
    requires 0 <= k < |h|
    ensures s in h
  {
    h[|h| - 1 - k]
  }

  /** ArrowUp on a non-empty list: one step further back, stopping at the oldest entry. */
  function UpIndex(len: nat, k: int): (r: int)
    requires len > 0 && -1 <= k < len
    ensures 0 <= r < len
    ensures r == k + 1 || (r == k && k == len - 1)
  {
    if k < len - 1 then k + 1 else k
  }

  /** ArrowDown: one step towards the newest entry, then off the list (-1); off the list it
      stays put. */
  function DownIndex(k: int): (r: int)
    requires -1 <= k
    ensures -1 <= r <= k
    ensures k >= 0 <==> r == k - 1
  {
    if k > 0 then k - 1 else if k == 0 then -1 else k
  }

  class ChatInput {
    var history: seq<string>
    var historyIndex: int
    var input: string
    var messages: seq<ChatMessage>
    var isLoading: bool

    /** The recall position is -1 (not recalling) or a position in the list. */
    ghost predicate Valid()
      reads this
    {
      -1 <= historyIndex < |history|
    }

    /** The screen starts from the saved history and conversation, not recalling, with an
        empty box and no request pending. */
    constructor (savedHistory: seq<string>, savedMessages: seq<ChatMessage>)
      ensures Valid()
      ensures history == savedHistory && messages == savedMessages
      ensures historyIndex == -1 && input == "" && !isLoading
    {
      history := savedHistory;
      messages := savedMessages;
      historyIndex := -1;
      input := "";
      isLoading := false;
    }

    /** `handleInputKeyDown`: ArrowUp recalls an older message when there is one, ArrowDown a
        newer one or clears the box after the newest; the result says whether the browser's
        default action was prevented. Nothing but the position and the box changes. */
    method KeyDown(key: Key) returns (prevented: bool)
      requires Valid()
      modifies this
      ensures Valid()
      ensures history == old(history) && messages == old(messages) && isLoading == old(isLoading)
      ensures prevented <==> (key == ArrowUp && |history| > 0) || key == ArrowDown
      ensures key == ArrowUp && |history| > 0 ==>
        && historyIndex == UpIndex(|history|, old(historyIndex))
        && input == Recalled(history, historyIndex)
      ensures key == ArrowDown && old(historyIndex) > 0 ==>
        && historyIndex == old(historyIndex) - 1
        && input == Recalled(history, historyIndex)
      ensures key == ArrowDown && old(historyIndex) == 0 ==> historyIndex == -1 && input == ""
      ensures key == ArrowDown ==> historyIndex == DownIndex(old(historyIndex))
      ensures key == OtherKey || (key == ArrowUp && |history| == 0) || (key == ArrowDown && old(historyIndex) == -1)
        ==> historyIndex == old(historyIndex) && input == old(input)
    {
      prevented := false;
      if key == ArrowUp && |history| > 0 {
        prevented := true;
        var newIndex := if historyIndex < |history| - 1 then historyIndex + 1 else historyIndex;
        historyIndex := newIndex;
        input := history[|history| - 1 - newIndex];
      } else if key == ArrowDown {
        prevented := true;
        if historyIndex > 0 {
          var newIndex := historyIndex - 1;
          historyIndex := newIndex;
          input := history[|history| - 1 - newIndex];
        } else if historyIndex == 0 {
          historyIndex := -1;
          input := "";
        }
      }
    }

    /** `sendMessage`'s bookkeeping: a blank box or a pending request sends nothing and
        changes nothing; otherwise the trimmed text is sent, appended to the history and to
        the conversation as the user's message, the box is cleared, recall restarts, and the
        screen waits for the reply. */
    method Send() returns (sent: Option<string>)
      requires Valid()
      modifies this
      ensures Valid()
      ensures sent.None? <==> AllSpace(old(input)) || old(isLoading)
      ensures sent.None? ==>
        && history == old(history) && messages == old(messages) && input == old(input)
        && historyIndex == old(historyIndex) && isLoading == old(isLoading)
      ensures sent.Some? ==>
        && sent.value == Trim(old(input)) && sent.value != ""
        && history == old(history) + [sent.value]
        && messages == old(messages) + [ChatMessage("user", sent.value)]
        && historyIndex == -1 && input == "" && isLoading
    {
      TrimEmptyIffBlank(input);
      if Trim(input) == [] || isLoading {
        return None;
      }
      var userMessage := Trim(input);
      input := "";
      history := history + [userMessage];
      historyIndex := -1;
      messages := messages + [ChatMessage("user", userMessage)];
      isLoading := true;
      sent := Some(userMessage);
    }
  }

  /** `messageHistory.slice(-50)`: the saved history is the last 50 messages sent, or all of
      them when there are fewer. */
  function PersistedHistory(h: seq<string>): (r: seq<string>)
    ensures |r| == if |h| < PersistedCount then |h| else PersistedCount
    ensures r == h[|h| - |r|..]
  {
    Slice(h, -(PersistedCount as int), |h|)
  }

  /** Saving what was saved keeps it as it is: a saved history already fits. */
  lemma PersistIdempotent(h: seq<string>)
    ensures PersistedHistory(PersistedHistory(h)) == PersistedHistory(h)
  {
    var r := PersistedHistory(h);
    assert r[|r| - |r|..] == r;
  }

  /** Where n presses of ArrowUp from position k end up. */
  function UpTimes(len: nat, k: int, n: nat): (r: int)
    requires len > 0 && -1 <= k < len
    ensures 0 <= r < len || (n == 0 && r == k)
    decreases n
  {
    if n == 0 then k else UpTimes(len, UpIndex(len, k), n - 1)
  }

  /** Where n presses of ArrowDown from position k end up. */
  function DownTimes(k: int, n: nat): (r: int)
    requires -1 <= k
    ensures -1 <= r <= k
    decreases n
  {
    if n == 0 then k else DownTimes(DownIndex(k), n - 1)
  }

  /** n presses of ArrowUp move n steps back, stopping at the oldest message. */
  lemma {:induction false} UpPresses(len: nat, k: int, n: nat)
    requires len > 0 && -1 <= k < len
    ensures UpTimes(len, k, n) == if k + n < len - 1 then k + n else len - 1
    decreases n
  {
    if n > 0 {
      UpPresses(len, UpIndex(len, k), n - 1);
    }
  }

  /** From a fresh box, the n-th ArrowUp (n >= 1) shows the n-th most recent message, or the
      oldest one once the list is exhausted. */
  lemma UpRecallsNthLatest(h: seq<string>, n: nat)
    requires |h| > 0 && n >= 1
    ensures Recalled(h, UpTimes(|h|, -1, n)) == h[if n < |h| then |h| - n else 0]
  {
    UpPresses(|h|, -1, n);
  }

  /** n presses of ArrowDown move n steps forward, stopping off the list. */
  lemma {:induction false} DownPresses(k: int, n: nat)
    requires -1 <= k
    ensures DownTimes(k, n) == if k - n < -1 then -1 else k - n
    decreases n
  {
    if n > 0 {
      DownPresses(DownIndex(k), n - 1);
    }
  }

  /** As many ArrowDown presses as ArrowUp presses undo them, as long as ArrowUp did not
      stop at the oldest message. */
  lemma UpThenDown(len: nat, k: int, n: nat)
    requires len > 0 && -1 <= k && k + n <= len - 1
    ensures DownTimes(UpTimes(len, k, n), n) == k
  {
    UpPresses(len, k, n);
    DownPresses(k + n, n);
  }

  /** After a real press of ArrowUp, ArrowDown gives back the box the user had, as long as
      ArrowUp did not stop at the oldest message: the previous recalled entry, or an empty
      box when recall had just started. */
  method UpThenDownRestores(c: ChatInput)
    requires c.Valid() && c.historyIndex < |c.history| - 1
    modifies c
    ensures c.Valid() && c.historyIndex == old(c.historyIndex)
    ensures c.history == old(c.history) && c.messages == old(c.messages)
    ensures old(c.historyIndex) == -1 ==> c.input == ""
    ensures old(c.historyIndex) >= 0 ==> c.input == Recalled(c.history, old(c.historyIndex))
  {
    var _ := c.KeyDown(ArrowUp);
    var _ := c.KeyDown(ArrowDown);
  }

  /** The music list's buttons: ArrowRight is disabled on the last page, so a click always
      lands on a page that still has tracks, and so does a click on the left button. */
  lemma MusicPagingShowsTracks<T>(tracks: seq<T>, page: nat)
    requires page < TotalPages(|tracks|, TracksPerPage)
    ensures page + 1 < TotalPages(|tracks|, TracksPerPage) ==>
      PageItems(tracks, NextPage(TotalPages(|tracks|, TracksPerPage), page), TracksPerPage) != []
    ensures PageItems(tracks, PrevPage(page), TracksPerPage) != []
  {
    var total := TotalPages(|tracks|, TracksPerPage);
    ButtonsClamp(total, page);
    PageNonEmptyIffInRange(tracks, NextPage(total, page), TracksPerPage);
    PageNonEmptyIffInRange(tracks, PrevPage(page), TracksPerPage);
  }
}
