# Image library manager, modelled in Dafny

This project models the library manager of a small image-organising web app.
The manager is the `useImageLibrary` hook. It keeps two persisted collections:

- `images`: image records with `id`, `name`, `base64Original`, an optional
  `base64Result` and a `folderId`.
- `foldersState`: folder descriptors with `id` and `name`.

It offers four mutations: `addImage`, `addResultToImage`, `addFolder` and
`moveImageToFolder`. It also offers one derived view, `folders`, which pairs
every descriptor with the images filed under it.

Files:

- `Types.dfy` (module `LibraryTypes`): the records of `src/types.ts`, the
  stored descriptor, the error thrown for a missing id, the untitled-folder
  constants and the first-use folder list.
- `FolderView.dfy` (module `FolderView`): the derived `folders` view as pure
  functions. It also gives an independent description of a folder's contents
  (the increasing list of matching positions) and lemmas tying the two together.
- `ImageLibrary.dfy` (module `ImageLibrary`): `findIndex`, and pure functions
  giving the new state after each mutation. It also holds the class `Library`,
  whose fields `images` and `foldersState` are the two persisted entries. Its
  methods perform the mutations and are proved against those functions. A last
  method, `PetsScenario`, is a client that replays a create/attach/move sequence
  using only the contracts.

Modelling choices:

- `uuid()` becomes a `freshId` argument. A precondition says the id is not
  already an image id (for `AddImage`) or a folder id (for `AddFolder`).
- A thrown `Error("No image with id …")` becomes `Fail(NoImageWithId(id))`. On
  that path nothing changes.
- Lookup is `findIndex`, so only the FIRST image with a matching id is updated.
  The methods do not require distinct ids. The class invariant `Valid()` says
  that image ids are distinct and folder ids are distinct. Every method keeps
  `Valid()` exactly as true as it was before.
- Neither `addImage` nor `moveImageToFolder` checks that the folder exists. The
  model keeps this. `AddImageToMissingFolder` proves that such an image is stored
  but appears in no folder.
- `addFolder` writes back the derived `folders` (useImageLibrary.ts:80), not the
  stored descriptors. Every earlier descriptor therefore gets persisted with an
  `images` array, a snapshot of that moment. `FolderRecord.snapshot` models
  this. `DerivedFoldersIgnoreSnapshots` and `AddFolderView` prove that the view
  depends only on ids and names, so the snapshot never shows.
- `images[foundIndex] = newImage` followed by `setImages([...images])` becomes a
  single sequence update of the `images` field.

## Model

| member | source | states |
|---|---|---|
| `FolderView.ImagesIn` | src/hooks/useImageLibrary.ts:49 | a folder's images are drawn from the library, all filed under that folder, and every image filed there is among them |
| `FolderView.MatchIndices` | src/hooks/useImageLibrary.ts:49 | the positions of the images filed under a folder, strictly increasing, each matching, and covering every matching position |
| `FolderView.ImagesInIsSelection` | src/hooks/useImageLibrary.ts:49 | the filter result is exactly the images at the matching positions, in order: the in-order subsequence |
| `FolderView.FolderViewIsFiltered` | src/hooks/useImageLibrary.ts:46-51 | `folders` has one entry per descriptor in the same order, keeps each id and name, and holds exactly the in-order subsequence of images whose `folderId` is that id |
| `FolderView.ImagesInAppend` | src/hooks/useImageLibrary.ts:49 | appending an image appends it to its own folder's images and leaves every other folder's images unchanged |
| `FolderView.ImagesInHasId` | src/hooks/useImageLibrary.ts:49 | an id appears in a folder's images exactly when some image with that id is filed under that folder |
| `FolderView.DerivedFolders` | src/hooks/useImageLibrary.ts:46-51 | one folder per stored descriptor, same order, id and name kept; that each folder holds exactly the in-order subsequence of matching images is stated by `FolderView.FolderViewIsFiltered` |
| `FolderView.DerivedFoldersIgnoreSnapshots` | src/hooks/useImageLibrary.ts:47-50 | the view depends on a descriptor's id and name only; a persisted `images` array is overridden |
| `ImageLibrary.FindIndex` | src/hooks/useImageLibrary.ts:65 | -1 exactly when no image has the id; otherwise an index holding the id with no earlier index holding it |
| `ImageLibrary.AttachResult` | src/hooks/useImageLibrary.ts:64-72 | fails with NoImageWithId exactly when the id is absent; otherwise same length, first matching record gets the result with id, name, original and folder kept, every other index unchanged |
| `ImageLibrary.MoveImage` | src/hooks/useImageLibrary.ts:84-92 | fails with NoImageWithId exactly when the id is absent; otherwise the id sequence is unchanged, same length, first matching record gets the new folderId with id, name, original and result kept, every other index unchanged |
| `ImageLibrary.Persist` | src/hooks/useImageLibrary.ts:80 | the derived folders written back one descriptor each, same order, id and name kept, each carrying its folder's images as a snapshot |
| `ImageLibrary.AddFolderRecords` | src/hooks/useImageLibrary.ts:75-81 | one more descriptor; earlier ones keep id, name and order and now carry a snapshot of their images; the new `{freshId, name}` comes last |
| `ImageLibrary.FindIndexByIds` | src/hooks/useImageLibrary.ts:65 | lookup depends only on the ids at each position |
| `ImageLibrary.AttachResultLastWins` | src/hooks/useImageLibrary.ts:67-72 | attaching twice to the same image gives the same library as attaching only the second payload |
| `ImageLibrary.SameFilingSameView` | src/hooks/useImageLibrary.ts:49 | libraries that agree on every image's id and folder list the same ids, in the same order, in every folder |
| `ImageLibrary.AttachResultKeepsFiling` | src/hooks/useImageLibrary.ts:64-72 | attaching a result keeps every id in place and moves no image between folders |
| `ImageLibrary.MoveImageView` | src/hooks/useImageLibrary.ts:84-92 | with distinct ids, the moved image shows in a folder exactly when it is the target folder; any other image shows where it did before |
| `ImageLibrary.MoveImageFolders` | src/hooks/useImageLibrary.ts:84-92 | in the derived view the moved image is listed under exactly the descriptors whose id is the target folder |
| `ImageLibrary.AddImageFolders` | src/hooks/useImageLibrary.ts:53-61 | after adding an image, its folder's view gains it at the end and every other folder's view is unchanged |
| `ImageLibrary.AddImageToMissingFolder` | src/hooks/useImageLibrary.ts:53-61 | an image added under an id naming no folder leaves the whole derived view unchanged |
| `ImageLibrary.AddFolderView` | src/hooks/useImageLibrary.ts:75-81 | after `addFolder` the view is the old view plus the new folder at the end, which is empty when no image names its id |
| `ImageLibrary.DistinctAppend` | src/hooks/useImageLibrary.ts:55 | appending a fresh id keeps a list of ids distinct exactly when it was |
| `ImageLibrary.Library.constructor` | src/hooks/useImageLibrary.ts:40-44 | no images, the single descriptor `untitled-folder`/`Untitled Folder`, whose view is empty; ids distinct |
| `ImageLibrary.Library.Folders` | src/hooks/useImageLibrary.ts:46-51 | the hook's `folders`: one entry per stored descriptor, same order, id and name kept, computed by `FolderView.DerivedFolders` over the current fields |
| `ImageLibrary.Library.AddImage` | src/hooks/useImageLibrary.ts:53-61 | returns `{freshId, name, original, folderId}` without a result, appended after the unchanged earlier images; folders untouched; its folder's view gains it at the end; distinct ids stay distinct |
| `ImageLibrary.Library.AddResultToImage` | src/hooks/useImageLibrary.ts:64-73 | new images are those of AttachResult, or on a missing id the error with images unchanged; folders untouched; every folder view lists the same ids |
| `ImageLibrary.Library.AddFolder` | src/hooks/useImageLibrary.ts:75-82 | returns `{freshId, name}`; the descriptors become AddFolderRecords of the derived view; images untouched; the view gains the new folder at the end |
| `ImageLibrary.Library.MoveImageToFolder` | src/hooks/useImageLibrary.ts:84-93 | new images are those of MoveImage, or on a missing id the error with images unchanged; folders untouched; with distinct ids the image is then listed under the target folder only |

## Left out

- React machinery (`useMemo`, `useCallback`, dependency arrays, re-render timing) is not modelled. `folders` is recomputed on every read (`Library.Folders`).
- `@rehooks/local-storage` is not modelled: JSON serialisation, browser storage and cross-tab notification. Its two keys are plain class fields. The constructor gives the default used when a key has never been written (useImageLibrary.ts:40-44). Reloading a persisted state after a restart is not modelled, and neither is what happens to stored data that cannot be read.
- `uuid()` randomness is not modelled. The fresh id is an argument with a not-in-use precondition.
- The lost-update race between concurrent uploads is not modelled. The callbacks close over a stale `images` and write into it in place. That is an async interleaving, and the model is sequential. So is the aliasing of the old array by the in-place write at lines 71 and 91.
- The upload pipeline (src/App.tsx:15-57) is not modelled. It does asynchronous I/O (`fetch`), decodes images through a foreign library and only logs its errors. It also calls `addImage` with two arguments where three are declared (src/App.tsx:27), so it has no coherent contract to model.
- The presentation components (LibrarySideBar, MoveImageModal, NewFolderModal, ImagePreview) are not modelled. They hold no library logic beyond trivial form guards.
