/** The derived `folders` view: every stored descriptor paired with the images
    filed under it, recomputed from the two collections. */
module FolderView {
  import opened LibraryTypes

  /** The images whose `folderId` is `folderId`, in library order. */
  function ImagesIn(images: seq<Image>, folderId: string): (r: seq<Image>)
    ensures |r| <= |images|
    ensures forall x :: x in r ==> x in images && x.folderId == folderId
    ensures forall i :: 0 <= i < |images| && images[i].folderId == folderId ==> images[i] in r
  {
    if |images| == 0 then []
    else if images[0].folderId == folderId then [images[0]] + ImagesIn(images[1..], folderId)
    else ImagesIn(images[1..], folderId)
  }

  /** Independent description of a folder's contents: the increasing list of
      positions `from` or later in `images` whose image is filed under `folderId`. */
  function MatchIndices(images: seq<Image>, folderId: string, from: nat): (idx: seq<nat>)
    ensures forall k :: 0 <= k < |idx| ==> from <= idx[k] < |images| && images[idx[k]].folderId == folderId
    ensures forall k, l :: 0 <= k < l < |idx| ==> idx[k] < idx[l]
    ensures forall i :: from <= i < |images| && images[i].folderId == folderId ==> i in idx
    decreases |images| - from
  {
    if from >= |images| then []
    else if images[from].folderId == folderId then [from] + MatchIndices(images, folderId, from + 1)
    else MatchIndices(images, folderId, from + 1)
  }

  /** `folders`: one entry per stored descriptor, same order. */
  function DerivedFolders(records: seq<FolderRecord>, images: seq<Image>): (r: seq<Folder>)
    ensures |r| == |records|
    ensures forall j :: 0 <= j < |records| ==> r[j].id == records[j].id && r[j].name == records[j].name
  {
    seq(|records|, j requires 0 <= j < |records| =>
      Folder(records[j].id, records[j].name, ImagesIn(images, records[j].id)))
  }

  /** A folder's images are exactly the images at its matching positions, in
      increasing order of position: the in-order subsequence of the library. */
  lemma {:induction false} ImagesInIsSelection(images: seq<Image>, folderId: string, from: nat)
    requires from <= |images|
    ensures |ImagesIn(images[from..], folderId)| == |MatchIndices(images, folderId, from)|
    ensures forall k :: 0 <= k < |MatchIndices(images, folderId, from)| ==>
      ImagesIn(images[from..], folderId)[k] == images[MatchIndices(images, folderId, from)[k]]
    decreases |images| - from
  {
    if from < |images| {
      ImagesInIsSelection(images, folderId, from + 1);
      var rest := MatchIndices(images, folderId, from + 1);
      var tail := ImagesIn(images[from + 1..], folderId);
      assert images[from..][1..] == images[from + 1..];
      assert images[from..][0] == images[from];
      if images[from].folderId == folderId {
        var view := [images[from]] + tail;
        var idx := [from] + rest;
        assert ImagesIn(images[from..], folderId) == view;
        assert MatchIndices(images, folderId, from) == idx;
        forall k | 0 <= k < |idx|
          ensures view[k] == images[idx[k]]
        {
          if k > 0 {
            assert view[k] == tail[k - 1] && idx[k] == rest[k - 1];
          }
        }
      } else {
        assert ImagesIn(images[from..], folderId) == tail;
      }
    }
  }

  /** The derived view keeps the descriptors' number, order, ids and names, and
      gives each folder exactly the in-order subsequence of the images whose
      `folderId` is that folder's id. */
  lemma FolderViewIsFiltered(records: seq<FolderRecord>, images: seq<Image>, j: nat)
    requires j < |records|
    ensures |DerivedFolders(records, images)| == |records|
    ensures DerivedFolders(records, images)[j].id == records[j].id
    ensures DerivedFolders(records, images)[j].name == records[j].name
    ensures var idx := MatchIndices(images, records[j].id, 0);
      var view := DerivedFolders(records, images)[j].images;
      |view| == |idx| && forall k :: 0 <= k < |idx| ==> view[k] == images[idx[k]]
  {
    ImagesInIsSelection(images, records[j].id, 0);
    assert images[0..] == images;
  }

  /** Appending an image appends it to the end of its own folder's images and
      to no other folder's. */
  lemma {:induction false} ImagesInAppend(images: seq<Image>, img: Image, folderId: string)
    ensures ImagesIn(images + [img], folderId)
         == ImagesIn(images, folderId) + (if img.folderId == folderId then [img] else [])
  {
    if |images| > 0 {
      assert (images + [img])[1..] == images[1..] + [img];
      ImagesInAppend(images[1..], img, folderId);
    }
  }

  /** A library holds image `imageId` in folder `folderId` exactly when some
      image with that id is filed there. */
  lemma ImagesInHasId(images: seq<Image>, folderId: string, imageId: string)
    ensures imageId in ImageIds(ImagesIn(images, folderId))
        <==> exists i :: 0 <= i < |images| && images[i].id == imageId && images[i].folderId == folderId
  {
    var view := ImagesIn(images, folderId);
    if imageId in ImageIds(view) {
      var k :| 0 <= k < |view| && ImageIds(view)[k] == imageId;
      assert view[k] in view;
      var i :| 0 <= i < |images| && images[i] == view[k];
      assert images[i].id == imageId && images[i].folderId == folderId;
    }
    if exists i :: 0 <= i < |images| && images[i].id == imageId && images[i].folderId == folderId {
      var i :| 0 <= i < |images| && images[i].id == imageId && images[i].folderId == folderId;
      assert images[i] in view;
      var k :| 0 <= k < |view| && view[k] == images[i];
      assert ImageIds(view)[k] == imageId;
    }
  }

  /** Only a descriptor's id and name matter to the view, not the snapshot it
      may carry. */
  lemma DerivedFoldersIgnoreSnapshots(a: seq<FolderRecord>, b: seq<FolderRecord>, images: seq<Image>)
    requires |a| == |b|
    requires forall j :: 0 <= j < |a| ==> a[j].id == b[j].id && a[j].name == b[j].name
    ensures DerivedFolders(a, images) == DerivedFolders(b, images)
  {
  }
}
