/** The library manager: the two persisted collections (`images` and the
    stored folder descriptors), the derived `folders` view and the four
    mutations over them. */
module ImageLibrary {
  import opened LibraryTypes
  import opened FolderView

  /** `images.findIndex(image => image.id === imageId)`: the first position
      holding that id, or -1 when there is none. */
  function FindIndex(images: seq<Image>, imageId: string): (r: int)
    ensures -1 <= r < |images|
    ensures r == -1 <==> forall i :: 0 <= i < |images| ==> images[i].id != imageId
    ensures r >= 0 ==> images[r].id == imageId && forall i :: 0 <= i < r ==> images[i].id != imageId
  {
    if |images| == 0 then -1
    else if images[0].id == imageId then 0
    else
      var k := FindIndex(images[1..], imageId);
      if k == -1 then -1 else k + 1
  }

  /** New `images` after attaching `base64Result` to image `imageId`, or the
      error thrown when no image has that id. Only the first image with the id
      is updated, and of it only `base64Result`. */
  function AttachResult(images: seq<Image>, imageId: string, base64Result: string): (r: Result<seq<Image>>)
    ensures r.Err? <==> imageId !in ImageIds(images)
    ensures r.Err? ==> r.error == NoImageWithId(imageId)
    ensures r.Ok? ==>
      var k := FindIndex(images, imageId);
      && |r.value| == |images|
      && r.value[k].base64Result == Some(base64Result)
      && r.value[k].id == images[k].id
      && r.value[k].name == images[k].name
      && r.value[k].base64Original == images[k].base64Original
      && r.value[k].folderId == images[k].folderId
      && forall i :: 0 <= i < |images| && i != k ==> r.value[i] == images[i]
  {
    var foundIndex := FindIndex(images, imageId);
    if foundIndex == -1 then
      Err(NoImageWithId(imageId))
    else
      assert ImageIds(images)[foundIndex] == imageId;
      Ok(images[foundIndex := images[foundIndex].(base64Result := Some(base64Result))])
  }

  /** New `images` after refiling image `imageId` under `folderId`, or the
      error thrown when no image has that id. Only the first image with the id
      is updated, and of it only `folderId`; `folderId` is not checked against
      the folders. */
  function MoveImage(images: seq<Image>, imageId: string, folderId: string): (r: Result<seq<Image>>)
    ensures r.Err? <==> imageId !in ImageIds(images)
    ensures r.Err? ==> r.error == NoImageWithId(imageId)
    ensures r.Ok? ==> ImageIds(r.value) == ImageIds(images)
    ensures r.Ok? ==>
      var k := FindIndex(images, imageId);
      && |r.value| == |images|
      && r.value[k].folderId == folderId
      && r.value[k].id == images[k].id
      && r.value[k].name == images[k].name
      && r.value[k].base64Original == images[k].base64Original
      && r.value[k].base64Result == images[k].base64Result
      && forall i :: 0 <= i < |images| && i != k ==> r.value[i] == images[i]
  {
    var foundIndex := FindIndex(images, imageId);
    if foundIndex == -1 then
      Err(NoImageWithId(imageId))
    else
      assert ImageIds(images)[foundIndex] == imageId;
      Ok(images[foundIndex := images[foundIndex].(folderId := folderId)])
  }

  /** The derived folders as persisted: descriptors that carry their images. */
  function Persist(folders: seq<Folder>): (r: seq<FolderRecord>)
    ensures |r| == |folders|
    ensures forall j :: 0 <= j < |folders| ==>
      && r[j].id == folders[j].id
      && r[j].name == folders[j].name
      && r[j].snapshot == Some(folders[j].images)
  {
    seq(|folders|, j requires 0 <= j < |folders| =>
      FolderRecord(folders[j].id, folders[j].name, Some(folders[j].images)))
  }

  /** New folder descriptors after creating folder `freshId` named `name`:
      written back from the derived `folders`, not from the stored
      descriptors, so each earlier descriptor now also carries a snapshot of
      its images. */
  function AddFolderRecords(records: seq<FolderRecord>, images: seq<Image>, freshId: string, name: string)
    : (r: seq<FolderRecord>)
    ensures |r| == |records| + 1
    ensures forall j :: 0 <= j < |records| ==>
      && r[j].id == records[j].id
      && r[j].name == records[j].name
      && r[j].snapshot == Some(ImagesIn(images, records[j].id))
    ensures r[|records|] == FolderRecord(freshId, name, None)
  {
    Persist(DerivedFolders(records, images)) + [FolderRecord(freshId, name, None)]
  }

  /** Lookup sees only the ids. */
  lemma FindIndexByIds(a: seq<Image>, b: seq<Image>, imageId: string)
    requires |a| == |b|
    requires forall i :: 0 <= i < |a| ==> a[i].id == b[i].id
    ensures FindIndex(a, imageId) == FindIndex(b, imageId)
  {
  }

  /** Attaching a result twice to the same image leaves only the second
      payload, as if the first attach had not happened. */
  lemma AttachResultLastWins(images: seq<Image>, imageId: string, first: string, second: string)
    requires AttachResult(images, imageId, first).Ok?
    ensures AttachResult(AttachResult(images, imageId, first).value, imageId, second)
         == AttachResult(images, imageId, second)
  {
    var once := AttachResult(images, imageId, first).value;
    FindIndexByIds(once, images, imageId);
    var k := FindIndex(images, imageId);
    var twice := AttachResult(once, imageId, second).value;
    var direct := AttachResult(images, imageId, second).value;
    assert twice[k] == direct[k];
    assert forall i :: 0 <= i < |images| ==> twice[i] == direct[i];
    assert twice == direct;
  }

  /** Two libraries that agree on every image's id and folder show the same
      ids, in the same order, in every folder. */
  lemma {:induction false} SameFilingSameView(a: seq<Image>, b: seq<Image>, folderId: string)
    requires |a| == |b|
    requires forall i :: 0 <= i < |a| ==> a[i].id == b[i].id && a[i].folderId == b[i].folderId
    ensures ImageIds(ImagesIn(a, folderId)) == ImageIds(ImagesIn(b, folderId))
  {
    if |a| > 0 {
      SameFilingSameView(a[1..], b[1..], folderId);
      var ta, tb := ImagesIn(a[1..], folderId), ImagesIn(b[1..], folderId);
      if a[0].folderId == folderId {
        assert ImagesIn(a, folderId) == [a[0]] + ta;
        assert ImagesIn(b, folderId) == [b[0]] + tb;
        IdsOfCons(a[0], ta);
        IdsOfCons(b[0], tb);
      } else {
        assert ImagesIn(a, folderId) == ta;
        assert ImagesIn(b, folderId) == tb;
      }
    }
  }

  lemma IdsOfCons(x: Image, s: seq<Image>)
    ensures ImageIds([x] + s) == [x.id] + ImageIds(s)
  {
  }

  /** Attaching a result keeps every id in place and moves no image between
      folders. */
  lemma AttachResultKeepsFiling(images: seq<Image>, imageId: string, base64Result: string, folderId: string)
    requires AttachResult(images, imageId, base64Result).Ok?
    ensures ImageIds(AttachResult(images, imageId, base64Result).value) == ImageIds(images)
    ensures ImageIds(ImagesIn(AttachResult(images, imageId, base64Result).value, folderId))
         == ImageIds(ImagesIn(images, folderId))
  {
    SameFilingSameView(AttachResult(images, imageId, base64Result).value, images, folderId);
  }

  /** With distinct ids, after moving image `imageId` to `folderId` the image is
      shown in folder `g` exactly when `g` is `folderId`, and every other image
      is shown where it was. */
  lemma MoveImageView(images: seq<Image>, imageId: string, folderId: string, g: string, other: string)
    requires Distinct(ImageIds(images))
    requires MoveImage(images, imageId, folderId).Ok?
    ensures imageId in ImageIds(ImagesIn(MoveImage(images, imageId, folderId).value, g)) <==> g == folderId
    ensures other != imageId ==>
      (other in ImageIds(ImagesIn(MoveImage(images, imageId, folderId).value, g))
       <==> other in ImageIds(ImagesIn(images, g)))
  {
    var moved := MoveImage(images, imageId, folderId).value;
    var k := FindIndex(images, imageId);
    ImagesInHasId(moved, g, imageId);
    ImagesInHasId(moved, g, other);
    ImagesInHasId(images, g, other);
    assert moved[k].id == imageId && moved[k].folderId == folderId;
    forall i | 0 <= i < |moved| && moved[i].id == imageId
      ensures i == k
    {
      assert ImageIds(images)[i] == ImageIds(images)[k];
    }
  }

  /** Folder-level reading of MoveImageView: in the derived view the moved
      image is listed under the descriptors whose id is the target folder and
      under no other. */
  lemma MoveImageFolders(records: seq<FolderRecord>, images: seq<Image>, imageId: string, folderId: string)
    requires Distinct(ImageIds(images))
    requires MoveImage(images, imageId, folderId).Ok?
    ensures forall j :: 0 <= j < |records| ==>
      (imageId in ImageIds(DerivedFolders(records, MoveImage(images, imageId, folderId).value)[j].images)
       <==> records[j].id == folderId)
  {
    forall j | 0 <= j < |records|
      ensures imageId in ImageIds(DerivedFolders(records, MoveImage(images, imageId, folderId).value)[j].images)
              <==> records[j].id == folderId
    {
      MoveImageView(images, imageId, folderId, records[j].id, imageId);
    }
  }

  /** Adding an image appends it to its folder's view and changes no other. */
  lemma AddImageFolders(records: seq<FolderRecord>, images: seq<Image>, image: Image)
    ensures |DerivedFolders(records, images + [image])| == |records|
    ensures forall j :: 0 <= j < |records| ==>
      DerivedFolders(records, images + [image])[j].images
      == DerivedFolders(records, images)[j].images + (if image.folderId == records[j].id then [image] else [])
  {
    forall j | 0 <= j < |records|
      ensures DerivedFolders(records, images + [image])[j].images
              == DerivedFolders(records, images)[j].images + (if image.folderId == records[j].id then [image] else [])
    {
      ImagesInAppend(images, image, records[j].id);
    }
  }

  /** An image added under an id that names no folder is stored but shows up
      in no folder: the derived view does not change. */
  lemma AddImageToMissingFolder(records: seq<FolderRecord>, images: seq<Image>, image: Image)
    requires image.folderId !in FolderIds(records)
    ensures DerivedFolders(records, images + [image]) == DerivedFolders(records, images)
  {
    AddImageFolders(records, images, image);
    forall j | 0 <= j < |records|
      ensures DerivedFolders(records, images + [image])[j] == DerivedFolders(records, images)[j]
    {
      assert FolderIds(records)[j] == records[j].id;
    }
  }

  /** After `addFolder` the view is the old view with the new folder at the
      end; the new folder shows whatever images already name its id, which is
      none when the id is fresh for the images too. */
  lemma AddFolderView(records: seq<FolderRecord>, images: seq<Image>, freshId: string, name: string)
    ensures DerivedFolders(AddFolderRecords(records, images, freshId, name), images)
         == DerivedFolders(records, images) + [Folder(freshId, name, ImagesIn(images, freshId))]
    ensures (forall i :: 0 <= i < |images| ==> images[i].folderId != freshId) ==> ImagesIn(images, freshId) == []
  {
  }

  /** Appending an id not yet in a list keeps it distinct exactly when it was. */
  lemma DistinctAppend(ids: seq<string>, freshId: string)
    requires freshId !in ids
    ensures Distinct(ids + [freshId]) <==> Distinct(ids)
  {
    if Distinct(ids + [freshId]) {
      forall i, j | 0 <= i < j < |ids|
        ensures ids[i] != ids[j]
      {
        assert (ids + [freshId])[i] == ids[i] && (ids + [freshId])[j] == ids[j];
      }
    }
  }

  /** The library manager, holding the two persisted collections. */
  class Library {
    var images: seq<Image>
    var foldersState: seq<FolderRecord>

    /** Image ids and folder ids are each pairwise distinct. */
    ghost predicate Valid()
      reads this
    {
      Distinct(ImageIds(images)) && Distinct(FolderIds(foldersState))
    }

    /** The state on first use: no images and the single untitled folder. */
    constructor ()
      ensures images == []
      ensures foldersState == DEFAULT_FOLDERS
      ensures Folders() == [Folder(UNTITLED_FOLDER_ID, UNTITLED_FOLDER_NAME, [])]
      ensures Valid()
    {
      images := [];
      foldersState := DEFAULT_FOLDERS;
    }

    /** `folders`: the stored descriptors with their images. */
    function Folders(): (r: seq<Folder>)
      reads this
      ensures |r| == |foldersState|
      ensures forall j :: 0 <= j < |foldersState| ==>
        r[j].id == foldersState[j].id && r[j].name == foldersState[j].name
    {
      DerivedFolders(foldersState, images)
    }

    /** `addImage`: stores a new image without a result under `folderId`
        (not checked against the folders) and returns it. */
    method AddImage(freshId: string, folderId: string, name: string, base64Original: string)
      returns (image: Image)
      requires freshId !in ImageIds(images)
      modifies this
      ensures image == Image(freshId, name, base64Original, None, folderId)
      ensures images == old(images) + [image]
      ensures foldersState == old(foldersState)
      ensures |Folders()| == |old(Folders())|
      ensures forall j :: 0 <= j < |foldersState| ==>
        Folders()[j].images == old(Folders())[j].images + (if folderId == foldersState[j].id then [image] else [])
      ensures Valid() == old(Valid())
    {
      image := Image(freshId, name, base64Original, None, folderId);
      AddImageFolders(foldersState, images, image);
      assert ImageIds(images + [image]) == ImageIds(images) + [freshId];
      DistinctAppend(ImageIds(images), freshId);
      images := images + [image];
    }

    /** `addResultToImage`: sets the result of the first image with id
        `imageId`, or fails with nothing changed. */
    method AddResultToImage(imageId: string, base64Result: string) returns (outcome: Outcome)
      modifies this
      ensures match AttachResult(old(images), imageId, base64Result)
        case Ok(next) => outcome == Pass && images == next
        case Err(e) => outcome == Fail(e) && images == old(images)
      ensures foldersState == old(foldersState)
      ensures forall j :: 0 <= j < |foldersState| ==>
        ImageIds(Folders()[j].images) == ImageIds(old(Folders())[j].images)
      ensures Valid() == old(Valid())
    {
      var foundIndex := FindIndex(images, imageId);
      if foundIndex == -1 {
        return Fail(NoImageWithId(imageId));
      }
      forall j | 0 <= j < |foldersState|
        ensures ImageIds(ImagesIn(AttachResult(images, imageId, base64Result).value, foldersState[j].id))
             == ImageIds(ImagesIn(images, foldersState[j].id))
      {
        AttachResultKeepsFiling(images, imageId, base64Result, foldersState[j].id);
      }
      var newImage := images[foundIndex].(base64Result := Some(base64Result));
      assert ImageIds(images)[foundIndex] == imageId;
      assert ImageIds(images[foundIndex := newImage]) == ImageIds(images);
      images := images[foundIndex := newImage];
      outcome := Pass;
    }

    /** `addFolder`: appends a new descriptor after the derived folders and
        returns it. */
    method AddFolder(freshId: string, name: string) returns (folder: FolderRecord)
      requires freshId !in FolderIds(foldersState)
      modifies this
      ensures folder == FolderRecord(freshId, name, None)
      ensures foldersState == AddFolderRecords(old(foldersState), old(images), freshId, name)
      ensures images == old(images)
      ensures Folders() == old(Folders()) + [Folder(freshId, name, ImagesIn(images, freshId))]
      ensures Valid() == old(Valid())
    {
      folder := FolderRecord(freshId, name, None);
      AddFolderView(foldersState, images, freshId, name);
      var next := Persist(Folders()) + [folder];
      assert FolderIds(next) == FolderIds(foldersState) + [freshId];
      DistinctAppend(FolderIds(foldersState), freshId);
      foldersState := next;
    }

    /** `moveImageToFolder`: refiles the first image with id `imageId` under
        `folderId`, or fails with nothing changed. */
    method MoveImageToFolder(imageId: string, folderId: string) returns (outcome: Outcome)
      modifies this
      ensures match MoveImage(old(images), imageId, folderId)
        case Ok(next) => outcome == Pass && images == next
        case Err(e) => outcome == Fail(e) && images == old(images)
      ensures foldersState == old(foldersState)
      ensures outcome.Pass? && old(Valid()) ==> forall j :: 0 <= j < |foldersState| ==>
        (imageId in ImageIds(Folders()[j].images) <==> foldersState[j].id == folderId)
      ensures Valid() == old(Valid())
    {
      var foundIndex := FindIndex(images, imageId);
      if foundIndex == -1 {
        return Fail(NoImageWithId(imageId));
      }
      if Valid() {
        MoveImageFolders(foldersState, images, imageId, folderId);
      }
      var newImage := images[foundIndex].(folderId := folderId);
      assert ImageIds(images)[foundIndex] == imageId;
      assert ImageIds(images[foundIndex := newImage]) == ImageIds(images);
      images := images[foundIndex := newImage];
      outcome := Pass;
    }
  }

  /** A client run: file an image in the untitled folder, attach its result,
      create a second folder and move the image there. Only the contracts above
      are used. */
  method PetsScenario()
  {
    var library := new Library();
    var cat := library.AddImage("i1", UNTITLED_FOLDER_ID, "cat.png", "orig");
    assert cat.base64Result == None;
    var attached := library.AddResultToImage("i1", "res");
    assert library.images == [cat.(base64Result := Some("res"))];
    var pets := library.AddFolder("f1", "Pets");
    assert library.Folders()[1] == Folder("f1", "Pets", []);
    var moved := library.MoveImageToFolder("i1", "f1");
    assert moved == Pass;
    assert library.Folders()[0].images == [];
    assert library.Folders()[1].images == [cat.(base64Result := Some("res"), folderId := "f1")];
    var missing := library.MoveImageToFolder("i2", "f1");
    assert missing == Fail(NoImageWithId("i2"));
  }
}
