/**
 * The scan history kept in the browser's local storage under one key: newest
 * first, capped by dropping the oldest entry when a save goes past 20.
 */
module Storage {

  /** The most entries a save leaves behind when the history was within the cap. */
  const MaxHistory: nat := 20

  /** One saved medicine scan. */
  datatype HistoryItem = HistoryItem(id: string, timestamp: int, imageData: string, analysisResult: string)

  /**
   * What `localStorage.getItem` finds under the history key: nothing, a value
   * that parses to a list of items, or a value that does not parse (an empty
   * string counts as nothing).
   */
  datatype Slot = Missing | Stored(items: seq<HistoryItem>) | Unparsable

  /** `getScanHistory` on a given slot: the stored list, or empty when there is none or parsing throws. */
  function HistoryIn(slot: Slot): (r: seq<HistoryItem>)
    ensures slot.Stored? ==> r == slot.items
    ensures !slot.Stored? ==> r == []
  {
    match slot
    case Stored(items) => items
    case _ => []
  }

  /** The list `saveScanResult` writes: the item in front, then the oldest entry dropped if there are more than 20. */
  function Saved(item: HistoryItem, prior: seq<HistoryItem>): (r: seq<HistoryItem>)
    ensures |r| >= 1 && r[0] == item
    ensures |prior| <= MaxHistory ==> |r| <= MaxHistory
    ensures |r| <= |prior| + 1 && |r| >= |prior|
  {
    var updated := [item] + prior;
    if |updated| > MaxHistory then updated[..|updated| - 1] else updated
  }

  /** The first `MaxHistory` entries, or all of them when there are fewer. */
  function Newest(all: seq<HistoryItem>): (r: seq<HistoryItem>)
    ensures |r| <= MaxHistory && r <= all
    ensures |all| <= MaxHistory ==> r == all
  {
    if |all| <= MaxHistory then all else all[..MaxHistory]
  }

  /**
   * A save puts the item at index 0 and keeps the prior entries after it in
   * their order; below the cap nothing is lost, at exactly the cap the oldest
   * entry goes, and beyond the cap only one entry is ever removed.
   */
  lemma SavedShape(item: HistoryItem, prior: seq<HistoryItem>)
    ensures var r := Saved(item, prior);
      && |r| >= 1 && r[0] == item
      && r[1..] <= prior
      && (|prior| < MaxHistory ==> r == [item] + prior)
      && (|prior| == MaxHistory ==> r == [item] + prior[..MaxHistory - 1] && |r| == MaxHistory)
      && (|prior| <= MaxHistory ==> |r| <= MaxHistory)
      && (|prior| > MaxHistory ==> |r| == |prior| > MaxHistory)
  {
    var r := Saved(item, prior);
    assert r[1..] == prior[..|r| - 1];
  }

  /** Within the cap, a save is the newest 20 of the item followed by the prior history. */
  lemma SavedIsNewest(item: HistoryItem, prior: seq<HistoryItem>)
    requires |prior| <= MaxHistory
    ensures Saved(item, prior) == Newest([item] + prior)
  {
  }

  /** Keeping the newest entries of a tail first does not change the newest entries of the whole. */
  lemma NewestOfNewestTail(a: seq<HistoryItem>, b: seq<HistoryItem>)
    ensures Newest(a + Newest(b)) == Newest(a + b)
  {
    if |b| > MaxHistory {
      var l := Newest(a + b);
      var r := Newest(a + Newest(b));
      assert |r| == |l| == MaxHistory;
      forall k | 0 <= k < MaxHistory ensures r[k] == l[k] {
        if k >= |a| {
          assert r[k] == b[k - |a|];
        }
      }
    }
  }

  /** `items` in reverse order. */
  function Reversed(items: seq<HistoryItem>): (r: seq<HistoryItem>)
    ensures |r| == |items|
    ensures forall k :: 0 <= k < |items| ==> r[k] == items[|items| - 1 - k]
  {
    if items == [] then [] else Reversed(items[1..]) + [items[0]]
  }

  /** The history after saving `items` one after another, starting from `prior`. */
  function SaveAll(prior: seq<HistoryItem>, items: seq<HistoryItem>): seq<HistoryItem>
    decreases |items|
  {
    if items == [] then prior else SaveAll(Saved(items[0], prior), items[1..])
  }

  /**
   * Starting within the cap, any run of saves leaves the 20 most recently saved
   * items, newest first, followed by what was there before while room remains.
   */
  lemma {:induction false} SaveAllKeepsNewest(prior: seq<HistoryItem>, items: seq<HistoryItem>)
    requires |prior| <= MaxHistory
    ensures SaveAll(prior, items) == Newest(Reversed(items) + prior)
    decreases |items|
  {
    if items != [] {
      var next := Saved(items[0], prior);
      var rest := Reversed(items[1..]);
      calc {
        SaveAll(prior, items);
        SaveAll(next, items[1..]);
        { SavedIsNewest(items[0], prior); SaveAllKeepsNewest(next, items[1..]); }
        Newest(rest + next);
        { SavedIsNewest(items[0], prior); }
        Newest(rest + Newest([items[0]] + prior));
        { NewestOfNewestTail(rest, [items[0]] + prior); }
        Newest(rest + ([items[0]] + prior));
        { assert rest + ([items[0]] + prior) == (rest + [items[0]]) + prior; }
        Newest(Reversed(items) + prior);
      }
    }
  }

  /** The local-storage slot holding the scan history. */
  class ScanHistoryStore {
    var slot: Slot

    /** `getScanHistory`: the stored list, or empty when the key is missing or its value does not parse. */
    function GetScanHistory(): (r: seq<HistoryItem>)
      reads this
      ensures slot.Stored? ==> r == slot.items
      ensures !slot.Stored? ==> r == []
    {
      HistoryIn(slot)
    }

    /** Nothing stored yet. */
    constructor ()
      ensures slot == Missing
      ensures GetScanHistory() == []
    {
      slot := Missing;
    }

    /**
     * `saveScanResult`: reads the history, puts the item in front, pops the last
     * entry when the list is longer than 20, and writes it back. A failing write
     * (a full quota) is caught and the stored value is left alone.
     */
    method SaveScanResult(item: HistoryItem, writeSucceeds: bool)
      modifies this
      ensures writeSucceeds ==> slot == Stored(Saved(item, old(GetScanHistory())))
      ensures !writeSucceeds ==> slot == old(slot)
      ensures writeSucceeds ==> GetScanHistory()[0] == item
    {
      var currentHistory := GetScanHistory();
      var updatedHistory := [item] + currentHistory;
      if |updatedHistory| > MaxHistory {
        updatedHistory := updatedHistory[..|updatedHistory| - 1];
      }
      if writeSucceeds {
        slot := Stored(updatedHistory);
      }
    }

    /** `clearHistory`: removes the key, so the history reads back empty. */
    method ClearHistory()
      modifies this
      ensures slot == Missing
      ensures GetScanHistory() == []
    {
      slot := Missing;
    }
  }
}
