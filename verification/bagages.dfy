/** The luggage page: search, image statistics, the short identifier, the image cell and deletion. */
module Bagages {
  import opened Optional
  import Text
  import Listing

  /** A piece of luggage as the API returns it; the image list may be missing. */
  datatype Bagage = Bagage(id: string, description: string, imageUrls: Option<seq<string>>)

  /** The search box: case-insensitive over the identifier or the description. */
  predicate MatchesSearch(b: Bagage, term: string) {
    Text.Matches(b.id, term) || Text.Matches(b.description, term)
  }

  /** `filteredBagages`: the luggage matching the search, in order. */
  function FilteredBagages(bs: seq<Bagage>, term: string): (r: seq<Bagage>)
    ensures Listing.IsSubseq(r, bs)
    ensures forall i :: 0 <= i < |r| ==> MatchesSearch(r[i], term)
    ensures forall i :: 0 <= i < |bs| && MatchesSearch(bs[i], term) ==> bs[i] in r
    ensures forall b :: multiset(r)[b] == if MatchesSearch(b, term) then multiset(bs)[b] else 0
  {
    Listing.Filter(bs, b => MatchesSearch(b, term))
  }

  /** An empty search shows every piece of luggage. */
  lemma FilteredBagagesIdentity(bs: seq<Bagage>)
    ensures FilteredBagages(bs, "") == bs
  {
    forall i | 0 <= i < |bs| ensures MatchesSearch(bs[i], "") {
      Text.MatchesEmpty(bs[i].id);
    }
    Listing.FilterAll(bs, b => MatchesSearch(b, ""));
  }

  predicate HasImages(b: Bagage) {
    b.imageUrls.Some? && |b.imageUrls.value| > 0
  }

  predicate HasNoImages(b: Bagage) {
    b.imageUrls.None? || |b.imageUrls.value| == 0
  }

  datatype BagageStats = BagageStats(total: nat, avecImages: nat, sansImages: nat)

  /** The quick statistics: each piece has images or has none. */
  function Stats(bs: seq<Bagage>): (st: BagageStats)
    ensures st.total == |bs|
    ensures st.avecImages + st.sansImages == st.total
    ensures st.avecImages == |Listing.Filter(bs, HasImages)|
  {
    Listing.CountSplit(bs, HasImages, HasNoImages);
    BagageStats(|bs|, Listing.Count(bs, HasImages), Listing.Count(bs, HasNoImages))
  }

  /** The identifier column: the last eight characters, upper-cased. */
  function DisplayId(id: string): (r: string)
    ensures |r| == if |id| < 8 then |id| else 8
    ensures forall i :: 0 <= i < |r| ==> r[i] == Text.UpperChar(id[|id| - |r| + i])
    ensures forall i :: 0 <= i < |r| ==> !('a' <= r[i] <= 'z')
  {
    Text.ToUpper(Text.TakeLast(id, 8))
  }

  /** Two identifiers whose last eight characters agree up to case show alike. */
  lemma {:induction false} DisplayIdSeesOnlyTheTail(a: string, b: string, t1: string, t2: string)
    requires |t1| == 8 && |t2| == 8
    requires Text.ToUpper(t1) == Text.ToUpper(t2)
    ensures DisplayId(a + t1) == DisplayId(b + t2)
  {
    var x := DisplayId(a + t1);
    var y := DisplayId(b + t2);
    forall i | 0 <= i < 8 ensures x[i] == y[i] {
      assert (a + t1)[|a + t1| - 8 + i] == t1[i];
      assert (b + t2)[|b + t2| - 8 + i] == t2[i];
      assert Text.ToUpper(t1)[i] == Text.ToUpper(t2)[i];
    }
  }

  /** One thumbnail: the image, or the placeholder once that image failed to load. */
  datatype Thumb = Img(url: string) | Placeholder

  /** The image column: "Aucune image", or up to three thumbnails and the image count. */
  datatype ImageCell = NoImage | Thumbs(thumbs: seq<Thumb>, count: nat)

  /** The key of the load-error flag of the `index`-th image: `${id}-${index}`. */
  function ImageKey(id: string, index: nat): string {
    id + "-" + Text.IntToString(index)
  }

  predicate Failed(errors: map<string, bool>, key: string) {
    key in errors && errors[key]
  }

  /** The image cell of a row, given the load-error flags collected so far. */
  function ImageCellOf(b: Bagage, errors: map<string, bool>): (cell: ImageCell)
    ensures cell.NoImage? <==> HasNoImages(b)
    ensures cell.Thumbs? ==> cell.count == |b.imageUrls.value|
    ensures cell.Thumbs? ==> |cell.thumbs| == if cell.count < 3 then cell.count else 3
    ensures cell.Thumbs? ==> forall i :: 0 <= i < |cell.thumbs| ==>
      cell.thumbs[i] == if Failed(errors, ImageKey(b.id, i)) then Placeholder else Img(b.imageUrls.value[i])
  {
    if HasNoImages(b) then NoImage
    else
      var urls := b.imageUrls.value;
      var shown := if |urls| < 3 then urls else urls[..3];
      Thumbs(seq(|shown|, i requires 0 <= i < |shown| =>
               if Failed(errors, ImageKey(b.id, i)) then Placeholder else Img(shown[i])), |urls|)
  }

  /** The statistics and the table agree: a piece counts "with images" exactly when its cell shows thumbnails. */
  lemma StatsMatchCells(bs: seq<Bagage>, errors: map<string, bool>)
    ensures Stats(bs).avecImages == Listing.Count(bs, (b: Bagage) => ImageCellOf(b, errors).Thumbs?)
  {
    Listing.FilterCongruent(bs, HasImages, (b: Bagage) => ImageCellOf(b, errors).Thumbs?);
  }

  /** With no load error, the thumbnails are the first images themselves. */
  lemma NoErrorShowsImages(b: Bagage)
    requires HasImages(b)
    ensures ImageCellOf(b, map[]).Thumbs?
    ensures forall i :: 0 <= i < |ImageCellOf(b, map[]).thumbs| ==>
      ImageCellOf(b, map[]).thumbs[i] == Img(b.imageUrls.value[i])
  {
  }

  datatype Request = DeleteBagage(id: string)

  /** `handleBagageAction`: only "delete" does anything, and only once confirmed. */
  function HandleBagageAction(action: string, b: Bagage, confirmed: bool): (r: Option<Request>)
    ensures r.Some? <==> action == "delete" && confirmed
    ensures r.Some? ==> r.value == DeleteBagage(b.id)
  {
    if action == "delete" && confirmed then Some(DeleteBagage(b.id)) else None
  }

  /** An action on a shown row can only delete that row, and that row is one of the loaded pieces. */
  lemma ActionDeletesAShownBagage(bs: seq<Bagage>, term: string, i: nat, action: string, confirmed: bool)
    requires i < |FilteredBagages(bs, term)|
    ensures HandleBagageAction(action, FilteredBagages(bs, term)[i], confirmed).Some? ==>
      HandleBagageAction(action, FilteredBagages(bs, term)[i], confirmed) == Some(DeleteBagage(FilteredBagages(bs, term)[i].id)) &&
      exists j :: 0 <= j < |bs| && bs[j].id == FilteredBagages(bs, term)[i].id
  {
    var b := FilteredBagages(bs, term)[i];
    assert b in bs;
    var j :| 0 <= j < |bs| && bs[j] == b;
  }
}
