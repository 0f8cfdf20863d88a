/** Bookkeeping of attachments that are removed locally and whose remote
    records must be deleted on the next update. */
module Media {
  import opened StoryTypes

  /** The remote reference of an attachment, as a sequence of zero or one. */
  function RefOf(a: Attachment): (r: seq<RecordRef>)
    ensures |r| <= 1
    ensures r == [] <==> a.cloudReference.None?
    ensures a.cloudReference.Some? ==> r == [a.cloudReference.value]
  {
    match a.cloudReference
    case Some(ref) => [ref]
    case None => []
  }

  /** The remote references held by a photo list, counted with multiplicity;
      photos that were never stored remotely contribute nothing. */
  function RefBag(photos: seq<Attachment>): (bag: multiset<RecordRef>)
  {
    if photos == [] then multiset{} else multiset(RefOf(photos[0])) + RefBag(photos[1..])
  }

  lemma {:induction false} RefBagConcat(a: seq<Attachment>, b: seq<Attachment>)
    ensures RefBag(a + b) == RefBag(a) + RefBag(b)
  {
    if a == [] {
      assert a + b == b;
    } else {
      assert (a + b)[0] == a[0];
      assert (a + b)[1..] == a[1..] + b;
      RefBagConcat(a[1..], b);
    }
  }

  /** The list with the element at index `i` removed and the rest kept in order
      (Swift's `Array.remove(at:)`). */
  function RemoveAt<T>(s: seq<T>, i: nat): (r: seq<T>)
    requires i < |s|
    ensures |r| == |s| - 1
    ensures forall j :: 0 <= j < i ==> r[j] == s[j]
    ensures forall j :: i <= j < |r| ==> r[j] == s[j + 1]
  {
    s[..i] + s[i + 1..]
  }

  /** Putting the removed element back at index `i` restores the list. */
  lemma ReinsertRemoved<T>(s: seq<T>, i: nat)
    requires i < |s|
    ensures RemoveAt(s, i)[..i] + [s[i]] + RemoveAt(s, i)[i..] == s
  {
    var r := RemoveAt(s, i);
    assert r[..i] == s[..i];
    assert r[i..] == s[i + 1..];
  }

  /** Removing photo `i` moves exactly its reference (if any) out of the list:
      the references left in the list together with the removed one are the
      references the list held before. */
  lemma {:induction false} RemovalConservesRefs(photos: seq<Attachment>, i: nat)
    requires i < |photos|
    ensures RefBag(RemoveAt(photos, i)) + multiset(RefOf(photos[i])) == RefBag(photos)
    decreases i
  {
    var r := RemoveAt(photos, i);
    if i == 0 {
      assert r == photos[1..];
    } else {
      assert r[0] == photos[0];
      assert r[1..] == RemoveAt(photos[1..], i - 1);
      RemovalConservesRefs(photos[1..], i - 1);
    }
  }

  /** The photo references on a story and those pending deletion are,
      together, the references `loaded` with it. */
  ghost predicate PhotoRefsConserved(photos: seq<Attachment>, pending: seq<RecordRef>,
                                     loaded: multiset<RecordRef>) {
    RefBag(photos) + multiset(pending) == loaded
  }

  /** Removing photo `i` and appending its reference (if any) to the pending
      list keeps the references conserved. */
  lemma DeletionConserves(photos: seq<Attachment>, pending: seq<RecordRef>, loaded: multiset<RecordRef>, i: nat)
    requires i < |photos|
    requires PhotoRefsConserved(photos, pending, loaded)
    ensures PhotoRefsConserved(RemoveAt(photos, i), pending + RefOf(photos[i]), loaded)
  {
    RemovalConservesRefs(photos, i);
  }

  /** Appending a photo that was never stored remotely adds no reference,
      so the references stay conserved. */
  lemma AppendLocalConserves(photos: seq<Attachment>, pending: seq<RecordRef>, loaded: multiset<RecordRef>, asset: Asset)
    requires PhotoRefsConserved(photos, pending, loaded)
    ensures PhotoRefsConserved(photos + [Attachment(asset, None)], pending, loaded)
  {
    RefBagConcat(photos, [Attachment(asset, None)]);
    assert [Attachment(asset, None)][1..] == [];
  }

  /** The remote reference of an optional attachment. */
  function CloudRefOf(a: Option<Attachment>): (ref: Option<RecordRef>)
    ensures ref.Some? <==> a.Some? && a.value.cloudReference.Some?
    ensures ref.Some? ==> ref == a.value.cloudReference
  {
    if a.Some? then a.value.cloudReference else None
  }

  /** The new value of a single pending-deletion slot after the optional
      attachment `removed` is cleared: its reference if it had one, the
      slot's previous value otherwise. */
  function AfterOptionalRemoval(slot: Option<RecordRef>, removed: Option<Attachment>): (pending: Option<RecordRef>)
    ensures pending == slot || pending == CloudRefOf(removed)
    ensures CloudRefOf(removed).Some? ==> pending == CloudRefOf(removed)
    ensures pending.None? ==> slot.None?
  {
    if CloudRefOf(removed).Some? then CloudRefOf(removed) else slot
  }
}
