# WebPaintEgui shared line model

A Dafny model of the `shared` crate of WebPaintEgui (`shared/src/lib.rs`), the
code that clients and server of this collaborative drawing app share. The
model covers:

- the line collection `Lines` and its reconciliation `Lines::merge`, which
  folds an incoming collection into a stored one under an optional set of
  changed line ids, plus `Lines::clear`;
- `Line::from_canvas` / `Line::to_canvas`, which move every point of a line
  between a client's canvas space and the shared normalized space;
- `ClientID::new`, which derives a client id from a random number and the
  connection count;
- `Peer::ip` and `Display for Peer`, which split a `"host:port"` string at its
  first `':'`.

Modules: `Wrappers` (Option, Result), `Canvas` (points, strokes, lines and the
coordinate moves), `LineStore` (the `Lines` class, the closed form `Merged` of
a merge and its properties), `ClientIds`, `Peers`.

`Lines` is a class whose field `entries: map<nat, Line>` stands for the
`HashMap<usize, Line>`. `Lines.Merge` keeps the source's two loops: it takes
the incoming ids one at a time, then drains the working set of changed ids.
Its postcondition gives the new map in closed form, `Merged(old(entries), ...)`:

- `Leftover` is the set of changed ids not consumed by an update. Consumed ids
  are those both stored and incoming.
- The result holds every stored or incoming id except the leftover ones.
- An id gets the incoming line, moved, when it is new or changed. Otherwise it
  keeps its stored line.

The pass picks the next id with `:|`, so the proof covers every order in which
a `HashMap` may iterate. The closing `assert!` of `merge` is an `assert` in
`Lines.Merge` and is proved to hold.

An id that is changed and incoming but not yet stored is inserted by the pass,
because the branch for a new id does not look at the changed set. It is then
removed by the drain, because that branch never consumes the id.
`MergeRemovesLeftover` states this.

The float arithmetic of the canvas map is not modelled. Points are pairs of
reals and the per-point maps are arbitrary total functions of the point and
the rectangle, passed in as a `CanvasMaps` value. What is proved about
`from_canvas`/`to_canvas` is structural: same number of points, same stroke and
flag, and each point mapped on its own.

`ClientID::new` takes the random number as a parameter instead of calling
`rand::random`. Its overflowing `u32` addition is modelled as a `Failure`,
which stands for the panic of a debug build.

## Model

| member | source | states |
|---|---|---|
| `Canvas.MapPoints` | shared/src/lib.rs:154-157 | the rewritten point list has the same length, and each point is the map applied to the point at the same index |
| `Canvas.MapLine` | shared/src/lib.rs:153-165 | a moved line keeps its point count, stroke and flag, and each point is mapped independently |
| `Canvas.LineFromCanvas` | shared/src/lib.rs:153-158 | the in-place loop over the coordinates yields the line with every point sent through the from-canvas map and nothing else changed |
| `Canvas.LineToCanvas` | shared/src/lib.rs:160-165 | the in-place loop over the coordinates yields the line with every point sent through the to-canvas map and nothing else changed |
| `LineStore.IncomingCopy` | shared/src/lib.rs:213-222 | the stored copy of an incoming line is the clone moved to canvas space for `ToCanvas`, or from it for `FromCanvas` |
| `LineStore.PassStep` | shared/src/lib.rs:196-227 | taking in one more incoming line writes its moved copy when the id is new or changed, and leaves the pass state unchanged otherwise |
| `LineStore.LeftoverStep` | shared/src/lib.rs:197-199 | taking in one more incoming id removes it from the leftover changed ids exactly when it is already stored |
| `LineStore.Lines.constructor` | shared/src/lib.rs:173-174 | a default `Lines` holds no line |
| `LineStore.Lines.Merge` | shared/src/lib.rs:185-234 | the collection afterwards is exactly `Merged` of the old collection and the inputs; the working set is empty at the closing assertion |
| `LineStore.Lines.MergeIncoming` | shared/src/lib.rs:192-227 | after the pass over `other`, the collection is `AfterPass` of the old one, and the working set holds exactly the changed ids not both stored and incoming |
| `LineStore.Lines.TakeIn` | shared/src/lib.rs:197-226 | an existing line is overwritten, with its id consumed, only when the changed set is present and holds the id; a new id is inserted and not consumed; otherwise nothing changes |
| `LineStore.Lines.Drain` | shared/src/lib.rs:229-233 | the drain removes exactly the working set's ids from the collection and leaves the working set empty |
| `LineStore.Lines.Clear` | shared/src/lib.rs:236-238 | afterwards the collection is empty |
| `LineStore.MergeKeepsUnchanged` | shared/src/lib.rs:197-211 | no-clobber: a stored line whose id is not changed is still there, unchanged, whatever `other` holds for it |
| `LineStore.MergeUpdatesChanged` | shared/src/lib.rs:199-210 | a stored, changed id present in `other` gets `other`'s line, moved, with the same point count, stroke and flag, each point mapped independently |
| `LineStore.MergeInsertsNew` | shared/src/lib.rs:212-225 | a new id that is not changed is stored as `other`'s line, moved |
| `LineStore.MergeRemovesLeftover` | shared/src/lib.rs:212-231 | a changed id that is not both stored and incoming is absent afterwards; when it is incoming it was inserted by the pass and removed by the drain |
| `LineStore.MergedKeys` | shared/src/lib.rs:196-231 | an id is in the result if and only if it is stored or incoming, and either it is not changed or it is both stored and incoming |
| `LineStore.MergeBounded` | shared/src/lib.rs:196-233 | the result's ids lie within the stored and incoming ids; an id neither incoming nor changed keeps its presence and its line |
| `LineStore.MergeWithoutChangedLines` | shared/src/lib.rs:192-199 | with no changed set nothing stored is replaced or removed; the result is the stored map plus the moved new incoming lines, on exactly the union of the two key sets |
| `LineStore.MergeWithoutChangedLinesIdempotent` | shared/src/lib.rs:192-225 | merging the same incoming lines a second time with no changed set leaves the collection as it is |
| `LineStore.MergeIntoEmpty` | shared/src/lib.rs:212-231 | merged into an empty collection, exactly the incoming ids that are not changed arrive, each as its moved line |
| `ClientIds.NewClientId` | shared/src/lib.rs:31-37 | on success the id minus the connection count is the largest multiple of 100 not above the random number; the result is an overflow error exactly when that multiple plus the count exceeds the `u32` range |
| `ClientIds.NewClientIdDigits` | shared/src/lib.rs:33-34 | with fewer than 100 connections and no overflow, id % 100 is the connection count and id / 100 equals random / 100 |
| `ClientIds.NewClientIdNoOverflow` | shared/src/lib.rs:34 | with at most 95 connections the addition never overflows, whatever the random number |
| `ClientIds.NewClientIdOverflows` | shared/src/lib.rs:34 | with 96 connections or more, the random number 4294967295 overflows the addition |
| `Peers.SplitOnce` | shared/src/lib.rs:246 | no split exactly when the separator is absent; otherwise the string is the first part, the separator, then the second part, and the first part has no separator |
| `Peers.PeerIp` | shared/src/lib.rs:245-250 | fails exactly when there is no `':'`; otherwise it is a proper prefix of the peer string that has no `':'` and is followed by `':'` |
| `Peers.PeerDisplay` | shared/src/lib.rs:253-260 | fails exactly when there is no `':'`; otherwise it writes back the peer string unchanged |
| `Peers.PeerIpIsBeforeFirstColon` | shared/src/lib.rs:245-250 | for any host without `':'` and any rest, even one that has `':'`s, the ip of `host:rest` is `host` |
| `Peers.SplitOnceFirst` | shared/src/lib.rs:246-247 | the split is made at the first separator: it gives back the separator-free prefix and the remainder |

## Left out

- Float arithmetic of `from_canvas`/`to_canvas`: the affine map by the rectangle's corner and size, in `f32`, is an arbitrary function here. A zero-width rectangle, which divides by zero, and the coordinate round trip are not modelled.
- `Line::new`, the derived `Default` of `Line`, the `Default` impls of `StrokeX` and `DSRect`, `SPos2::new` and the `From<Pos2>`/`From<Vec2>` conversions for `SPos2` are constructors that only build or wrap values. They are not modelled. Widths are reals, and colours are four `u8` channels.
- Serde serialization of `SPos2`, `StrokeX`, `DSRect`, `Line`, `Lines` and `Message` is library plumbing. It is not modelled, and neither is the `Message` struct that only carries these values over the wire.
- `Deref` impls and `Display for ClientID` only forward to their inner values. They are not modelled.
- `ClientIds.NewClientId`: models the panic of a debug build on `u32` overflow. It does not model the wrap-around of a release build.
- `rand::random` is not modelled. The random number is a parameter of `NewClientId`.
- Line ids are unbounded `nat`s instead of `usize`. No arithmetic is done on them.
- backend/src/main.rs is not part of this model. It holds HTTP handlers over global mutex-guarded statics and a timer thread that evicts idle connections. Its `post_lines` calls `update_from_other`, which does not appear in the shared crate.
- frontend/src/app.rs, frontend/src/requests.rs and frontend/src/web.rs are not part of this model. They hold UI rendering, input handling, browser fetches and wasm glue.
- shared/src/config.rs is not part of this model. It loads `config.toml`, or writes a default one and exits.
- frontend/build.rs is not part of this model. It generates `assets/images.rs`, the list of embedded image files.
- The shared crate has no client registry, per-client pending deletions or clear barrier; only `Flag::Clear` and the `Message` fields exist, so none of these is modelled.
