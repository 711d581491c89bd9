# Facecap landmarker: blendshape-to-morph-target model

This project models the one piece of logic in the avatar scene of
`src/App.tsx`. A face landmarker reports, per video frame, blendshape
categories with scores. The scene stores them as a list of `{name, value}`
blendshapes. On every render, the head mesh's morph-target influences are
updated from that list through a constant name table.

- `NameMap` (`name_map.dfy`): the constant table `map`. Its keys are the
  mesh's morph-target names, with `_L`/`_R` side suffixes. Each key gives the
  landmarker's category name, with `Left`/`Right` suffixes. `tongueOut` gives
  the empty string. `Lookup` is the property access `map[key]`, with
  `undefined` as `None`; it is written as a `match` over the table's own
  keys, in the table's order.
- `Frames` (`frames.dfy`): the `Blendshape` record and the landmarker's
  result types. It has the conversion of the first face's categories into
  blendshapes, and the scene's blendshape state as a class whose frame
  callback `OnVideoFrame` replaces the list or keeps it.
- `Influences` (`influences.dfy`): the loop of the `Facecap` component.
  It walks the morph-target dictionary in entry order and finds the first
  blendshape whose name equals `map[key]`. When there is one, it writes that
  blendshape's score into the influence array at the entry's index.
  `UpdateInfluences` does this in place on an `array`. It is proved equal to
  the specification function `Applied`, and the lemmas state what `Applied`
  does: which indices change, to what value, and what stays untouched.

Scores are a type parameter `V`. The source only copies them, so no floating
point arithmetic appears in the model.

The morph-target dictionary is a sequence of `(name, index)` entries in the
order `Object.entries` yields them. Two entries may name the same index. The
later write then wins, and `LastWriter` says which entry that is.

Three behaviours of the code are easy to misread:

- The lookup direction. The code evaluates `map[key]` with `key` a mesh
  morph-target name and compares the result with the blendshape's name. It
  never looks up `map[blendshape.name]`. So the dictionary key `browDown_L`
  is driven by the landmarker category `browDownLeft`. A dictionary key
  `browDownLeft` is not in the table and is never written.
- `tongueOut` looks up `""`, so its entry is written only when the list holds
  a blendshape literally named `""`, and is otherwise left alone.
- An empty category list. `if (categories)` is true for an empty array in
  JavaScript. So a face with no categories replaces the stored list by the
  empty list. Only a missing result or a missing face keeps the old list.

## Model

| member | source | states |
|---|---|---|
| `NameMap.Lookup` | src/App.tsx:87-140 | the table entry for entry, in source order, read as `map[key]` with `undefined` (a missing own key) as `None`; every landmarker name but the empty one keeps its mesh name's initial, and a side suffix grows a name by at most three characters |
| `NameMap.OnlyTongueOutDisabled` | src/App.tsx:87-140 | `tongueOut` is the one table key that looks up the empty string; every other key gives a non-empty landmarker name or `undefined` |
| `Frames.FirstFaceCategories` | src/App.tsx:62 | the optional chain yields the first face's categories exactly when there is a result with at least one face, and `undefined` otherwise |
| `Frames.ToBlendshapes` | src/App.tsx:65-67 | the conversion keeps length and order, with `name` the category name and `value` the score of the category at the same position |
| `Frames.NextBlendshapes` | src/App.tsx:62-69 | with the first face's categories present, the new list is their conversion, element by element; without them the current list is kept |
| `Frames.PublishedFrameReplaces` | src/App.tsx:63-68 | a published frame replaces the list outright: the list after it does not depend on the list before it |
| `Frames.Scene.constructor` | src/App.tsx:50 | the blendshape state starts as the empty list |
| `Frames.Scene.OnVideoFrame` | src/App.tsx:54-72 | the frame callback sets the state to the next list for the frame's landmarker result, and changes nothing else |
| `Influences.FindFirst` | src/App.tsx:164 | `find` returns the position of a blendshape whose name equals the looked-up target, with no earlier one matching; `None` exactly when no blendshape matches, which includes an `undefined` target |
| `Influences.Driver` | src/App.tsx:164 | the position of the first blendshape whose name equals `map[key]`; `None` exactly when no blendshape has that name, always so when `map[key]` is `undefined` |
| `Influences.Step` | src/App.tsx:164-168 | one pass of the loop body: the entry's index takes the driving blendshape's score when there is one; every other index keeps its value, and nothing changes when there is no driver |
| `Influences.Applied` | src/App.tsx:163-169 | the update never changes the length of the influence array |
| `Influences.LastWriter` | src/App.tsx:163-168 | names the last dictionary entry at an index whose key is driven by a blendshape, with no later driven entry at that index; `None` when no entry writes there |
| `Influences.AppliedWrites` | src/App.tsx:163-168 | an entry whose key is driven, and which no later driven entry at the same index overrides, leaves the score of the first blendshape named `map[key]` at its index |
| `Influences.AppliedKeeps` | src/App.tsx:163-169 | an index that no driven entry names keeps its old value: no reset to zero, and no write outside the dictionary's indices |
| `Influences.AppliedAt` | src/App.tsx:163-169 | every element after the update is the score of the index's last driven entry, or its old value when there is none |
| `Influences.AppliedIdempotent` | src/App.tsx:163-169 | running the update twice with the same blendshapes and dictionary gives the same array as running it once |
| `Influences.EmptyListKeepsAll` | src/App.tsx:164-168 | an empty blendshape list leaves the whole influence array unchanged |
| `Influences.MappedEntries` | src/App.tsx:164 | keeps exactly the dictionary entries whose key is one of the table's own keys, adding and repeating none |
| `Influences.UnmappedKeysIgnored` | src/App.tsx:164-167 | entries whose key is not in the table look up `undefined`, match no blendshape and write nothing: dropping them all leaves the update unchanged |
| `Influences.TongueOutNeedsEmptyName` | src/App.tsx:164-167 | the `tongueOut` entry (table line 139) writes nothing unless a blendshape is named `""`, and otherwise writes the first such blendshape's score |
| `Influences.BrowDownLeftDrivesBrowDownL` | src/App.tsx:163-167 | the table is read from mesh name to landmarker name: the key `browDown_L` (table line 89) takes the score of the first blendshape named `browDownLeft`, wherever it stands in the list, and keeps its value when there is none; `browDownLeft` itself is no key of the table |
| `Influences.UpdateInfluences` | src/App.tsx:158-169 | the in-place loop leaves the influence array equal to `Applied` of its old contents, given that every dictionary index lies inside the array |

## Left out

- The React components and hooks (`App`, `Styled`, `Scene`'s hooks, `Clone`, `FaceControls`) are UI composition and re-render plumbing. The re-render that runs the update after each published frame is left to the caller of `UpdateInfluences`.
- The KTX2 transcoder set-up and its network path, and the GLTF loading, are I/O through foreign libraries.
- The landmarker call `detectForVideo` is an opaque inference library call. Its result is a parameter of `OnVideoFrame`, as an optional result holding one category list per face. The `index` and `displayName` fields of a category are not used by the source and are not modelled.
- Finding the head node by name and the shadow flags set by `traverse` belong to the rendering engine. A missing head node would fail before the loop; the model starts from the head's influence array and dictionary.
- The `console.log` calls.
- Score arithmetic: scores are never computed with, so they stay an opaque type.
- The key order of `Object.entries` is taken as given by the dictionary sequence. JavaScript lists integer-like keys first, which morph-target names are not.
- `UpdateInfluences` requires every dictionary index to lie inside the influence array. In JavaScript a write past the end would grow the array; the mesh's own dictionary never does that.
- A landmarker result is assumed always to have a `faceBlendshapes` array, as the landmarker library provides. A result without one would throw in the source.
- NameMap.Lookup: its contract states only the shared initial and the length bound; the entries themselves are its body, listed in the table's order. The full side-suffix renaming rule (`X_L` to `XLeft`, `X_R` to `XRight`, other names unchanged) over all 52 entries is not proved, because that proof exceeds the verifier's resource limit.
