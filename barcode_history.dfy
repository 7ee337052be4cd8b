/**
 * The scan history: a most-recent-first list of `BarcodeData` kept under one
 * key of the device's key-value store, capped at `MaxHistoryItems` entries.
 */
module BarcodeHistory {
  import opened Wrappers
  import opened Barcode

  /** The history cap (`MAX_HISTORY_ITEMS`). */
  const MaxHistoryItems: nat := 1000

  /**
   * The storage entry under the history key: nothing stored (or an empty
   * string), a list that parses, or an entry that cannot be read or parsed.
   */
  datatype HistorySlot = NoEntry | Entry(records: seq<BarcodeData>) | Unreadable

  /** Why a storage write was rejected. */
  datatype StorageError = WriteFailed

  /** `getHistory`: the stored list, or the empty list when nothing usable is stored. */
  function ReadHistory(slot: HistorySlot): (history: seq<BarcodeData>)
    ensures !slot.Entry? ==> history == []
    ensures history != [] ==> slot == Entry(history)
  {
    match slot
    case Entry(records) => records
    case NoEntry => []
    case Unreadable => []
  }

  /** The entry `saveBarcode` builds: the caller's fields plus a fresh id and timestamp. */
  function NewRecord(draft: ScanDraft, id: string, timestamp: int): (r: BarcodeData)
    ensures r.kind == draft.kind && r.value == draft.value
    ensures r.isValid == draft.isValid && r.error == draft.error
    ensures r.id == id && r.timestamp == timestamp
  {
    BarcodeData(id, draft.kind, draft.value, timestamp, draft.isValid, draft.error)
  }

  /** `s.slice(0, n)`: the first `n` elements, or all of `s` when it is shorter. */
  function Take<T>(s: seq<T>, n: nat): (r: seq<T>)
    ensures |r| == if |s| <= n then |s| else n
    ensures r == s[..|r|]
  {
    if |s| <= n then s else s[..n]
  }

  /**
   * The list `saveBarcode` writes: the new record first, then the previous
   * history in its order, cut to the cap.
   */
  function Prepended(history: seq<BarcodeData>, rec: BarcodeData): (r: seq<BarcodeData>)
    ensures |r| == if |history| < MaxHistoryItems then |history| + 1 else MaxHistoryItems
    ensures r[0] == rec
    ensures r[1..] == history[..|r| - 1]
  {
    Take([rec] + history, MaxHistoryItems)
  }

  /** A save never lets the stored list grow beyond the cap. */
  lemma SaveRespectsCap(history: seq<BarcodeData>, rec: BarcodeData)
    ensures |Prepended(history, rec)| <= MaxHistoryItems
    ensures |history| < MaxHistoryItems ==> Prepended(history, rec) == [rec] + history
  {
  }

  /**
   * Only the oldest entries are dropped: the previous history is exactly the
   * kept entries followed by the dropped tail, and the tail is non-empty only
   * when the list was already at the cap.
   */
  lemma SaveDropsOnlyOldest(history: seq<BarcodeData>, rec: BarcodeData)
    ensures var kept := Prepended(history, rec)[1..];
      && history == kept + history[|kept|..]
      && (|history[|kept|..]| > 0 <==> |history| >= MaxHistoryItems)
  {
    var kept := Prepended(history, rec)[1..];
    assert history == history[..|kept|] + history[|kept|..];
  }

  /** The entry at position `k` moves to position `k + 1`, unless it falls past the cap. */
  lemma SaveShiftsByOne(history: seq<BarcodeData>, rec: BarcodeData, k: nat)
    requires k < |history| && k + 1 < MaxHistoryItems
    ensures Prepended(history, rec)[k + 1] == history[k]
  {
  }

  /**
   * A save reads an unreadable entry as the empty list, so a successful save
   * over it keeps only the new record: whatever was stored is discarded.
   */
  lemma SaveOverUnreadableDiscardsIt(rec: BarcodeData)
    ensures Prepended(ReadHistory(Unreadable), rec) == [rec]
    ensures ReadHistory(Entry(Prepended(ReadHistory(Unreadable), rec))) == [rec]
  {
  }

  /** `history.filter(item => item.id !== id)`. */
  function WithoutId(history: seq<BarcodeData>, id: string): (r: seq<BarcodeData>)
    ensures forall x :: x in r <==> x in history && x.id != id
    ensures |r| <= |history|
  {
    if history == [] then []
    else (if history[0].id == id then [] else [history[0]]) + WithoutId(history[1..], id)
  }

  /** Filtering distributes over concatenation, so the survivors keep their relative order. */
  lemma {:induction false} WithoutIdConcat(a: seq<BarcodeData>, b: seq<BarcodeData>, id: string)
    ensures WithoutId(a + b, id) == WithoutId(a, id) + WithoutId(b, id)
  {
    if a != [] {
      assert (a + b)[1..] == a[1..] + b;
      WithoutIdConcat(a[1..], b, id);
    } else {
      assert a + b == b;
    }
  }

  /** Deleting an id no record carries leaves the list unchanged. */
  lemma {:induction false} WithoutAbsentId(history: seq<BarcodeData>, id: string)
    requires forall x :: x in history ==> x.id != id
    ensures WithoutId(history, id) == history
  {
    if history != [] {
      WithoutAbsentId(history[1..], id);
    }
  }

  /** Deleting the same id twice is the same as deleting it once. */
  lemma DeleteIdempotent(history: seq<BarcodeData>, id: string)
    ensures WithoutId(WithoutId(history, id), id) == WithoutId(history, id)
  {
    WithoutAbsentId(WithoutId(history, id), id);
  }

  /** Deleting removes exactly the records with that id: one fewer per occurrence. */
  lemma {:induction false} DeleteCount(history: seq<BarcodeData>, id: string)
    ensures |WithoutId(history, id)| == |history| - |IdsMatching(history, id)|
  {
    if history != [] {
      DeleteCount(history[1..], id);
    }
  }

  /** The records in `history` whose id is `id`, in order. */
  function IdsMatching(history: seq<BarcodeData>, id: string): seq<BarcodeData>
  {
    if history == [] then []
    else (if history[0].id == id then [history[0]] else []) + IdsMatching(history[1..], id)
  }

  /**
   * `BarcodeHistoryService`: its static methods read and rewrite the one
   * storage entry, modelled as the field `slot`. A storage write either
   * succeeds or is rejected (`accepted`); a rejected write leaves the entry
   * as it was and the operation reports the failure to its caller.
   */
  class BarcodeHistoryService {
    var slot: HistorySlot

    constructor (stored: HistorySlot)
      ensures slot == stored
    {
      slot := stored;
    }

    /** `getHistory`: never fails; an absent or unreadable entry reads as the empty list. */
    method GetHistory() returns (history: seq<BarcodeData>)
      ensures slot.Entry? ==> history == slot.records
      ensures !slot.Entry? ==> history == []
    {
      history := ReadHistory(slot);
    }

    /** `getHistoryCount`: the length of what `getHistory` returns. */
    method GetHistoryCount() returns (n: nat)
      ensures n == |ReadHistory(slot)|
      ensures slot.Entry? ==> n == |slot.records|
      ensures !slot.Entry? ==> n == 0
    {
      var history := GetHistory();
      n := |history|;
    }

    /**
     * `saveBarcode`: prepends the new record to the current history and
     * writes back at most `MaxHistoryItems` entries. An unreadable entry
     * reads as empty, so a successful save replaces it with the one record.
     */
    method SaveBarcode(draft: ScanDraft, id: string, timestamp: int, accepted: bool)
      returns (o: Outcome<StorageError>)
      modifies this
      ensures o.Pass? <==> accepted
      ensures accepted ==> slot == Entry(Prepended(ReadHistory(old(slot)), NewRecord(draft, id, timestamp)))
      ensures !accepted ==> slot == old(slot)
    {
      var history := GetHistory();
      var newBarcode := NewRecord(draft, id, timestamp);
      var updatedHistory := [newBarcode] + history;
      var limitedHistory := Take(updatedHistory, MaxHistoryItems);
      o := SetItem(Entry(limitedHistory), accepted);
    }

    /** `clearHistory`: removes the entry, so that the history reads as empty. */
    method ClearHistory(accepted: bool) returns (o: Outcome<StorageError>)
      modifies this
      ensures o.Pass? <==> accepted
      ensures slot == if accepted then NoEntry else old(slot)
      ensures accepted ==> ReadHistory(slot) == []
    {
      o := SetItem(NoEntry, accepted);
    }

    /** `deleteBarcode`: writes back the history without the records carrying `id`. */
    method DeleteBarcode(id: string, accepted: bool) returns (o: Outcome<StorageError>)
      modifies this
      ensures o.Pass? <==> accepted
      ensures slot == if accepted then Entry(WithoutId(ReadHistory(old(slot)), id)) else old(slot)
    {
      var history := GetHistory();
      var filteredHistory := WithoutId(history, id);
      o := SetItem(Entry(filteredHistory), accepted);
    }

    /** One write (`setItem` or `removeItem`) to the entry; a rejected write changes nothing. */
    method SetItem(entry: HistorySlot, accepted: bool) returns (o: Outcome<StorageError>)
      modifies this
      ensures o.Pass? <==> accepted
      ensures slot == if accepted then entry else old(slot)
    {
      if accepted {
        slot := entry;
        o := Pass;
      } else {
        o := Fail(WriteFailed);
      }
    }
  }
}
