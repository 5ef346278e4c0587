/**
 * lib/storage.ts: the flat-file store of the review ids an operator has made
 * public. The file is a field of `SelectionStore`; every toggle reads it,
 * computes the new list and writes it back as one step.
 */
module Storage {
  import opened Wrappers
  import opened Seqs
  import opened ReviewTypes

  /**
   * The selections file: unreadable (missing, not JSON, or `null`), or a
   * parsed object whose `selectedReviewIds` may be missing.
   */
  datatype SelectionFile = Unreadable | Stored(selectedReviewIds: Option<seq<ReviewId>>)

  /** The error a failed write raises; it reaches the caller. */
  datatype StoreError = WriteFailed

  /** `getSelectedReviewIds`: the stored list, or the empty list when there is none to read. */
  function ReadSelection(file: SelectionFile): seq<ReviewId> {
    match file
    case Stored(Some(ids)) => ids
    case _ => []
  }

  /** `selectedIds.filter(id => id !== reviewId)`: every occurrence of `id` gone, all other ids kept. */
  function Without(ids: seq<ReviewId>, id: ReviewId): (r: seq<ReviewId>)
    ensures id !in r
    ensures forall y :: y != id ==> (y in r <==> y in ids)
  {
    var r := Filter(ids, (y: ReviewId) => y != id);
    FilterIn(ids, (y: ReviewId) => y != id, id);
    forall y | y != id ensures y in r <==> y in ids {
      FilterIn(ids, (y: ReviewId) => y != id, y);
    }
    r
  }

  /**
   * Removal keeps each other id as often as it was stored and in the same
   * order: it deletes the removed id from each piece of the list.
   */
  lemma WithoutKeepsOrder(a: seq<ReviewId>, b: seq<ReviewId>, id: ReviewId)
    ensures Without(a + b, id) == Without(a, id) + Without(b, id)
    ensures forall y :: y != id ==> multiset(Without(a, id))[y] == multiset(a)[y]
    ensures Without([id], id) == [] && forall y :: y != id ==> Without([y], id) == [y]
  {
    FilterConcat(a, b, (y: ReviewId) => y != id);
    forall y | y != id ensures multiset(Without(a, id))[y] == multiset(a)[y] {
      FilterMultiset(a, (y: ReviewId) => y != id, y);
    }
  }

  /**
   * The list after a toggle: without `id` if it was stored, otherwise with
   * `id` appended. Exactly `id` changes membership.
   */
  function ToggledIds(ids: seq<ReviewId>, id: ReviewId): (r: seq<ReviewId>)
    ensures id in r <==> id !in ids
    ensures forall y :: y != id ==> (y in r <==> y in ids)
    ensures id !in ids ==> r == ids + [id]
  {
    if id in ids then Without(ids, id) else ids + [id]
  }

  /** Toggling an id that was not stored, twice, gives back the stored list exactly. */
  lemma ToggleTwiceRestoresAbsent(ids: seq<ReviewId>, id: ReviewId)
    requires id !in ids
    ensures ToggledIds(ToggledIds(ids, id), id) == ids
  {
    var p := (y: ReviewId) => y != id;
    FilterConcat(ids, [id], p);
    FilterAll(ids, p);
    assert Filter([id], p) == [];
  }

  /** Toggling any id twice gives back every id's membership. */
  lemma ToggleTwiceRestoresMembership(ids: seq<ReviewId>, id: ReviewId, y: ReviewId)
    ensures y in ToggledIds(ToggledIds(ids, id), id) <==> y in ids
  {
  }

  /** ... but not always the list itself: a stored id comes back at the end. */
  lemma ToggleTwiceCanReorder(id: ReviewId, other: ReviewId)
    requires id != other
    ensures ToggledIds(ToggledIds([id, other], id), id) == [other, id]
  {
    WithoutKeepsOrder([id], [other], id);
    assert [id, other] == [id] + [other];
  }

  /** No id is stored twice. */
  ghost predicate NoDuplicates(ids: seq<ReviewId>) {
    forall y :: multiset(ids)[y] <= 1
  }

  /** A list without duplicates keeps that property through a toggle. */
  lemma ToggleKeepsNoDuplicates(ids: seq<ReviewId>, id: ReviewId)
    requires NoDuplicates(ids)
    ensures NoDuplicates(ToggledIds(ids, id))
  {
    var r := ToggledIds(ids, id);
    forall y ensures multiset(r)[y] <= 1 {
      if id in ids {
        FilterMultiset(ids, (z: ReviewId) => z != id, y);
      } else {
        assert multiset(r) == multiset(ids) + multiset{id};
        assert multiset(ids)[id] == 0;
      }
    }
  }

  class SelectionStore {
    var file: SelectionFile

    constructor (initial: SelectionFile)
      ensures file == initial
    {
      file := initial;
    }

    /** `getSelectedReviewIds`. */
    method GetSelectedReviewIds() returns (ids: seq<ReviewId>)
      ensures ids == ReadSelection(file)
      ensures file.Unreadable? || file.selectedReviewIds.None? ==> ids == []
    {
      match file
      case Stored(Some(stored)) => ids := stored;
      case _ => ids := [];
    }

    /** `isReviewSelected`: membership in the stored list. */
    method IsReviewSelected(reviewId: ReviewId) returns (selected: bool)
      ensures selected <==> reviewId in ReadSelection(file)
    {
      var ids := GetSelectedReviewIds();
      selected := reviewId in ids;
    }

    /**
     * `toggleReviewSelection`: reads the list, flips `reviewId`, writes the
     * new list and reports whether the id is now selected. A failed write
     * reaches the caller as an error and leaves the file as it was.
     */
    method ToggleReviewSelection(reviewId: ReviewId, writeSucceeds: bool) returns (result: Result<bool, StoreError>)
      modifies this
      ensures writeSucceeds ==> result == Success(reviewId !in old(ReadSelection(file)))
      ensures writeSucceeds ==> file == Stored(Some(ToggledIds(old(ReadSelection(file)), reviewId)))
      ensures !writeSucceeds ==> result == Failure(WriteFailed) && file == old(file)
      ensures result.Success? ==> (reviewId in ReadSelection(file) <==> result.value)
    {
      var selectedIds := GetSelectedReviewIds();
      var newSelectedIds: seq<ReviewId>;
      var isNowSelected: bool;
      if reviewId in selectedIds {
        newSelectedIds := Without(selectedIds, reviewId);
        isNowSelected := false;
      } else {
        newSelectedIds := selectedIds + [reviewId];
        isNowSelected := true;
      }
      if !writeSucceeds {
        return Failure(WriteFailed);
      }
      file := Stored(Some(newSelectedIds));
      result := Success(isNowSelected);
    }
  }

  /** Toggling 42 on an empty store selects it and stores [42]; toggling again clears it. */
  method ToggleScenario() {
    var store := new SelectionStore(Stored(Some([])));
    var first := store.ToggleReviewSelection(42.0, true);
    assert ReadSelection(Stored(Some([]))) + [42.0] == [42.0];
    assert first == Success(true) && store.file == Stored(Some([42.0]));
    var second := store.ToggleReviewSelection(42.0, true);
    assert Without([42.0], 42.0) == [];
    assert second == Success(false) && store.file == Stored(Some([]));
  }
}
