/** Records of the image library: images, stored folder descriptors and the
    derived folders that the library hands to its readers. */
module LibraryTypes {

  datatype Option<T> = None | Some(value: T)

  /** One uploaded image. `base64Result` is absent until a processed result
      has been attached; `folderId` names the folder the image is filed in. */
  datatype Image = Image(
    id: string,
    name: string,
    base64Original: string,
    base64Result: Option<string>,
    folderId: string)

  /** A folder descriptor as it is persisted under the `folders` key.
      Descriptors written back by `addFolder` are copies of the derived folders
      and so also carry the `images` array of that moment (`snapshot`); a
      descriptor that was never written back has none. */
  datatype FolderRecord = FolderRecord(id: string, name: string, snapshot: Option<seq<Image>>)

  /** A folder as readers see it: a descriptor together with its images. */
  datatype Folder = Folder(id: string, name: string, images: seq<Image>)

  /** The error thrown when an image id is not in the library. */
  datatype LibraryError = NoImageWithId(imageId: string)

  datatype Result<T> = Ok(value: T) | Err(error: LibraryError)

  datatype Outcome = Pass | Fail(error: LibraryError)

  const UNTITLED_FOLDER_ID: string := "untitled-folder"
  const UNTITLED_FOLDER_NAME: string := "Untitled Folder"

  /** The `folders` entry before anything has been persisted. */
  const DEFAULT_FOLDERS: seq<FolderRecord> := [FolderRecord(UNTITLED_FOLDER_ID, UNTITLED_FOLDER_NAME, None)]

  function ImageIds(images: seq<Image>): seq<string>
  {
    seq(|images|, i requires 0 <= i < |images| => images[i].id)
  }

  function FolderIds(records: seq<FolderRecord>): seq<string>
  {
    seq(|records|, j requires 0 <= j < |records| => records[j].id)
  }

  predicate Distinct(ids: seq<string>)
  {
    forall i, j :: 0 <= i < j < |ids| ==> ids[i] != ids[j]
  }
}
