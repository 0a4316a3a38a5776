# AsyncFolders: folder finalisation and the batch spliterator

AsyncFolders builds an in-memory tree of a directory (folders holding
subfolders and documents) and streams its entries. This project models the
two sequential pieces of that library in Dafny and proves their
properties.

- **Folder construction** (`Folder.java`). A `Folder` collects two pending
  lists while the directory is listed: futures to its subfolders and futures
  to its documents. `addEntry` puts each listed path in one of the two
  lists, and `addAll` merges two partial folders. `joinAll` waits for every
  future and freezes the results into the finalized lists. `computeSize`
  then records the recursive entry count: one for the folder, plus the
  sizes of its subfolders, plus its number of documents. The listing that
  feeds all this leaves out the folder's own path.
- **The spliterator** (`BatchFolderSpliterator.java`). The nested cursor
  (`BFSIterator`) holds one current entry, a folder stack and a document
  stack. It yields the root first. When it needs a new entry it pops the
  last folder and pushes that folder's subfolders and documents onto the
  ends of the two stacks. It pops a document, also from the end, only once
  no folder is left. So despite its name the walk is last-in-first-out, not
  breadth-first. The spliterator yields entries one at a time
  (`tryAdvance`). It also detaches batches of up to `mBatchSize` entries
  (`trySplit`/`splitBatch`) and doubles `mBatchSize` after each batch. The
  first batch size is the tree's size divided by the processor count.

The files:

- `optional.dfy`: `Option`, which models a nullable Java reference.
- `dirent.dfy`:
  - the finalized tree as a value, `Dirent`;
  - `Entries`, each entry of a tree once;
  - `Finalized`, what `computeSize` leaves behind all the way down;
  - the lemma that a finalized folder's recorded size is its number of
    entries.
- `folder.dfy`:
  - `Folder`, a class with the Java fields;
  - a `Future` is either completed with an entry or failed;
  - `WithoutRoot`, the root-path filter;
  - `Finish`, the synchronous tail of `fromDirectory`: join, set the path,
    compute the size.
- `batch_folder_spliterator.dfy`:
  - `Pending`, the reference order of the cursor as a function of its two
    stacks, with its lemmas;
  - the classes `BFSIterator` and `BatchFolderSpliterator`.
  - `BFSIterator` carries a ghost `remaining`, the entries still to come.
    Its `Valid()` ties that to the held entry and the two stacks.

The main results:

- Driving a cursor to exhaustion yields exactly the entries of the tree,
  each with its multiplicity. For a finalized folder their number is its
  recorded size, which is the size estimate the spliterator starts with
  (`TraversalCoversTree`, the spliterator constructor).
- Folders always come before documents (`TraversalOrder`).
- A split detaches a prefix of exactly `min(batchSize, remaining)` entries
  in cursor order. The parent keeps only the rest, and the batch size
  doubles (`TrySplit`, `SplitBatch`).

## Model

| member | source | states |
|---|---|---|
| Folders.Folder.constructor | AsyncFolders/src/main/java/folder/Folder.java:59-62 | a new folder has both pending lists empty and nothing finalized yet |
| Folders.Folder.AddEntry | AsyncFolders/src/main/java/folder/Folder.java:240-265 | a directory path appends exactly its produced subfolder future to the subfolder list and leaves the document list unchanged; any other path appends its produced document future to the document list and leaves the subfolder list unchanged; no other field changes |
| Folders.Folder.AddAll | AsyncFolders/src/main/java/folder/Folder.java:274-278 | each pending list becomes its old self followed by the other folder's old list (so merging a folder with itself doubles it); the result is this folder; a distinct argument keeps its lists |
| Folders.Joined | AsyncFolders/src/main/java/folder/Folder.java:301-312 | the joined values have the length of the futures and the value of the i-th future at position i |
| Folders.AllCompleted | AsyncFolders/src/main/java/folder/Folder.java:293-299 | the condition under which waiting for all pending futures succeeds; it holds exactly when no future failed |
| Folders.Folder.JoinAll | AsyncFolders/src/main/java/folder/Folder.java:284-318 | completion holds exactly when every pending future completed; then both finalized lists are the joined values in pending order and the size is the number of immediate children; if any future failed, nothing is set |
| Folders.Folder.SetPath | AsyncFolders/src/main/java/folder/Folder.java:203 | the path is set and no other field changes |
| Folders.Folder.ComputeSize | AsyncFolders/src/main/java/folder/Folder.java:221-231 | the size is the sum of the subfolders' recorded sizes plus the number of documents plus one; an empty folder has size 1; with finalized subfolders the size is one plus the entries of the subfolders' trees plus the documents |
| Folders.Finish | AsyncFolders/src/main/java/folder/Folder.java:197-213 | a folder results exactly when every pending future completed; it has the root path and the joined lists; when every subfolder is a finalized folder and every document a document, the result is finalized and its size is the number of entries of its tree |
| Folders.WithoutRoot | AsyncFolders/src/main/java/folder/Folder.java:188-190 | a path survives exactly when it was listed and is not the root; every other path keeps its multiplicity; the root never survives |
| Folders.WithoutRootAppend | AsyncFolders/src/main/java/folder/Folder.java:188-190 | filtering distributes over concatenation, so the surviving paths keep the listing's order |
| Folders.WithoutRootKeeps | AsyncFolders/src/main/java/folder/Folder.java:188-190 | a listing that does not mention the root passes through unchanged |
| Dirents.SumSizes | AsyncFolders/src/main/java/folder/Folder.java:222-225 | the sum of the subfolders' recorded sizes that computeSize adds up; no subfolder's size exceeds it |
| Dirents.Finalized | AsyncFolders/src/main/java/folder/Folder.java:221-231 | defines what computeSize leaves behind all the way down: subfolders are finalized folders, documents are documents, and each folder's size is one plus its subfolders' sizes plus its number of documents |
| Dirents.SumSizesCount | AsyncFolders/src/main/java/folder/Folder.java:222-225 | over finalized folders, the sum of the recorded sizes equals the number of entries of their trees |
| Dirents.FinalizedSizeCounts | AsyncFolders/src/main/java/folder/Folder.java:221-231 | the recorded size of a finalized folder is the number of entries of its tree |
| Dirents.FolderEntryCount | AsyncFolders/src/main/java/folder/Folder.java:227-230 | the computeSize equation over finalized subfolders counts the entries of the folder it builds |
| BatchFolderSpliterators.InitialBatchSize | AsyncFolders/src/main/java/folder/BatchFolderSpliterator.java:49-50 | the first batch size is the size divided by the processor count, rounded down; for one processor it is the size; with fewer entries than processors it is 0 |
| BatchFolderSpliterators.Pending | AsyncFolders/src/main/java/folder/BatchFolderSpliterator.java:150-176 | the order in which a cursor holding no entry produces what its stacks hold: the last folder first, followed by what the stacks with its children appended produce; the last document only once no folder is left; the cursor is exhausted exactly when both stacks are empty |
| BatchFolderSpliterators.Traversal | AsyncFolders/src/main/java/folder/BatchFolderSpliterator.java:133-176 | the order in which a fresh cursor over a folder produces its tree; it is never empty and starts with the folder itself |
| BatchFolderSpliterators.BatchFolderSpliterator.constructor | AsyncFolders/src/main/java/folder/BatchFolderSpliterator.java:43-54 | the size estimate is the folder's size; the batch size is seeded by the division above; the spliterator covers the folder's traversal, whose length is the estimate |
| BatchFolderSpliterators.BatchFolderSpliterator.TryAdvance | AsyncFolders/src/main/java/folder/BatchFolderSpliterator.java:59-69 | it reports an entry exactly when one remains, hands out the first remaining entry and consumes exactly it; otherwise it consumes nothing |
| BatchFolderSpliterators.BatchFolderSpliterator.TrySplit | AsyncFolders/src/main/java/folder/BatchFolderSpliterator.java:76-85 | no batch exactly when nothing remains, and then nothing changes; otherwise the batch has min(batch size, remaining) entries, is a prefix of the remaining entries, the parent keeps only the rest, and the batch size doubles (a batch size of 0 gives empty batches and stays 0) |
| BatchFolderSpliterators.BatchFolderSpliterator.SplitBatch | AsyncFolders/src/main/java/folder/BatchFolderSpliterator.java:90-108 | the batch is the first min(batch size, remaining) remaining entries in cursor order, the parent keeps the rest, and the batch size doubles |
| BatchFolderSpliterators.BFSIterator.constructor | AsyncFolders/src/main/java/folder/BatchFolderSpliterator.java:133-144 | the root is held as the current entry and the stacks are copies of its subfolders and documents; what remains is the root's traversal |
| BatchFolderSpliterators.BFSIterator.HasNext | AsyncFolders/src/main/java/folder/BatchFolderSpliterator.java:150-176 | the entries still to come do not change; the answer is true exactly when an entry remains, and then the held entry is the next one; with an entry held nothing changes (so a repeated call changes nothing); otherwise it pops the last folder and appends its subfolders and documents to the stacks, or (with no folder left) pops the last document, or finds both stacks empty |
| BatchFolderSpliterators.BFSIterator.Next | AsyncFolders/src/main/java/folder/BatchFolderSpliterator.java:181-190 | it returns the held entry (absent if none) and clears the slot; the stacks are unchanged; a returned entry is removed from the front of what remains |
| BatchFolderSpliterators.PopFolder | AsyncFolders/src/main/java/folder/BatchFolderSpliterator.java:154-165 | popping the last folder yields it next, followed by what the stacks with its children pushed yield; its tree splits between the two |
| BatchFolderSpliterators.PendingContents | AsyncFolders/src/main/java/folder/BatchFolderSpliterator.java:150-176 | what a cursor with given stacks still yields is, as a multiset and in length, the entries of the stacked folders' trees plus the stacked documents |
| BatchFolderSpliterators.PendingDocuments | AsyncFolders/src/main/java/folder/BatchFolderSpliterator.java:168-171 | with no folder stacked, the documents come out last first |
| BatchFolderSpliterators.PendingFoldersFirst | AsyncFolders/src/main/java/folder/BatchFolderSpliterator.java:154-171 | with finalized folders and documents stacked, no document is yielded before a folder |
| BatchFolderSpliterators.TraversalUnfold | AsyncFolders/src/main/java/folder/BatchFolderSpliterator.java:133-144 | a fresh cursor yields the root, then what its subfolders and documents stacked as they are yield |
| BatchFolderSpliterators.TraversalCoversTree | AsyncFolders/src/main/java/folder/BatchFolderSpliterator.java:133-176 | the traversal of a tree holds each of its entries with its multiplicity and nothing else; for a finalized folder its length is the recorded size |
| BatchFolderSpliterators.TraversalOrder | AsyncFolders/src/main/java/folder/BatchFolderSpliterator.java:133-176 | a finalized folder's traversal starts with the folder, puts every folder before every document, and for a folder without subfolders is the folder followed by its documents last first |

## Left out

- Asynchrony: `supplyAsync`, `thenCompose`, `thenApply`, `allOf` and `join` are not modelled. Every future is already settled, as completed with an entry or failed. `JoinAll` joins synchronously, and a failed future makes it report failure.
- Filesystem I/O: the model has no `Files.walk` and no `Files.isDirectory`. The listing is a sequence of paths passed to `WithoutRoot`, and directory-ness is the predicate parameter of `AddEntry`.
- Producers of children: the recursive `fromDirectory` and `Document.fromPath` calls in `addEntry` are function parameters of `AddEntry` returning a settled future.
- `FolderCollector`, which calls `addEntry`, `addAll` and `joinAll`, is not part of this model. `Finish` covers only the synchronous tail of `fromDirectory`.
- `EntryVisitor` callbacks are not modelled: they are side-effecting foreign calls.
- Stream plumbing is not modelled: `stream`, `parallelStream`, `spliterator`, `RecursiveFolderSpliterator`, and the characteristic flags passed to the superclass.
- Parallel consumption of the split batches by a fork/join pool is not modelled.
- `Runtime.availableProcessors()` is the parameter `availableProcessors` of the spliterator constructor, which must be at least 1.
- `debug`/`Options` verbose printing is not modelled.
- `ExceptionUtils` exception adapters are not modelled.
- BatchFolderSpliterators.BatchFolderSpliterator.SplitBatch: the `Object[]` buffer is modelled as a sequence that grows by one entry per step. `Spliterators.spliterator(array, 0, index, 0)` over it is modelled as returning exactly the filled prefix.
- BatchFolderSpliterators.BatchFolderSpliterator.TryAdvance: the consumer's `accept` is modelled by returning the entry.
- BatchFolderSpliterators.BatchFolderSpliterator.SplitBatch: `mBatchSize` is an unbounded `nat`, so the Java `int` overflow after about 31 doublings is not modelled.
- BatchFolderSpliterators.InitialBatchSize: the `(int)` cast of the `long` size happens before the division. It is not modelled, so sizes beyond the `int` range are not covered.
- Folders.Folder.ComputeSize: `mSize` is a Java `long`; the model's unbounded `nat` ignores overflow.
- Folders.Folder.ComputeSize: Java casts each subfolder to `Folder` to read its size. The model requires every subfolder to be a folder instead, so the `ClassCastException` path does not occur.
- BatchFolderSpliterators.BatchFolderSpliterator.constructor and BatchFolderSpliterators.BFSIterator.constructor: both require a finalized folder, which is what a completed `fromDirectory` delivers.
- Getters (`getSubFolders`, `getDocuments`, `size`) and `accept` are field reads or visitor calls, and have no separate members.
