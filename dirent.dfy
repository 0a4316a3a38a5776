/**
 * The finalized directory tree. Once a folder has been joined and its size
 * computed nothing in it changes again, so a finalized folder is a value.
 */
module Dirents {

  type Path = string

  /** A directory entry: a folder with its subfolders, its documents and its
      recorded entry count, or a document (a leaf; its contents are opaque). */
  datatype Dirent =
    | Folder(path: Path, subFolders: seq<Dirent>, documents: seq<Dirent>, size: nat)
    | Document(path: Path)

  /** The subfolders of an entry; a document has none. */
  function SubFoldersOf(d: Dirent): seq<Dirent>
  {
    if d.Folder? then d.subFolders else []
  }

  /** The documents of an entry; a document has none. */
  function DocumentsOf(d: Dirent): seq<Dirent>
  {
    if d.Folder? then d.documents else []
  }

  /** Every entry of the tree rooted at `d`, each once: the entry itself, the
      entries of its subfolders, then its documents. */
  function Entries(d: Dirent): seq<Dirent>
  {
    match d
    case Document(_) => [d]
    case Folder(_, subs, docs, _) => [d] + EntriesOf(subs) + docs
  }

  /** The entries of all the trees in `s`, tree after tree. */
  function EntriesOf(s: seq<Dirent>): seq<Dirent>
  {
    if s == [] then [] else EntriesOf(s[..|s| - 1]) + Entries(s[|s| - 1])
  }

  /** True when every entry of the list is a folder. */
  predicate AllFolders(s: seq<Dirent>)
  {
    forall i :: 0 <= i < |s| ==> s[i].Folder?
  }

  /** The sum of the recorded sizes of a list of folders; no folder's size
      exceeds it. */
  function SumSizes(s: seq<Dirent>): (r: nat)
    requires AllFolders(s)
    ensures forall i :: 0 <= i < |s| ==> s[i].size <= r
  {
    if s == [] then 0 else SumSizes(s[..|s| - 1]) + s[|s| - 1].size
  }

  /** What finalization leaves behind, all the way down: subfolders are
      folders, documents are documents, and every folder records one for
      itself plus its subfolders' sizes plus its number of documents. */
  predicate Finalized(d: Dirent)
    decreases d, 1
  {
    match d
    case Document(_) => true
    case Folder(_, subs, docs, size) =>
      FinalizedFolders(subs) && AllDocuments(docs) &&
      AllFolders(subs) && size == SumSizes(subs) + |docs| + 1
  }

  /** A list of finalized folders, as a folder holds in `subFolders`. */
  predicate FinalizedFolders(s: seq<Dirent>)
    ensures FinalizedFolders(s) ==> AllFolders(s)
    decreases s, 0
  {
    s == [] || (FinalizedFolders(s[..|s| - 1]) && s[|s| - 1].Folder? && Finalized(s[|s| - 1]))
  }

  /** A list of documents, as a folder holds in `documents`. */
  predicate AllDocuments(s: seq<Dirent>)
  {
    forall i :: 0 <= i < |s| ==> s[i].Document?
  }

  /** Every member of a list of finalized folders is a finalized folder. */
  lemma {:induction false} FinalizedFoldersAt(s: seq<Dirent>, i: nat)
    requires FinalizedFolders(s) && i < |s|
    ensures s[i].Folder? && Finalized(s[i])
    decreases |s|
  {
    if i < |s| - 1 {
      FinalizedFoldersAt(s[..|s| - 1], i);
    }
  }

  /** A list whose every member is a finalized folder is a list of finalized
      folders. */
  lemma {:induction false} FinalizedFoldersAll(s: seq<Dirent>)
    requires forall i :: 0 <= i < |s| ==> s[i].Folder? && Finalized(s[i])
    ensures FinalizedFolders(s)
    decreases |s|
  {
    if s != [] {
      FinalizedFoldersAll(s[..|s| - 1]);
    }
  }

  /** Two lists of finalized folders make one. */
  lemma {:induction false} FinalizedFoldersAppend(a: seq<Dirent>, b: seq<Dirent>)
    requires FinalizedFolders(a) && FinalizedFolders(b)
    ensures FinalizedFolders(a + b)
    decreases |b|
  {
    if b == [] {
      assert a + b == a;
    } else {
      var b' := b[..|b| - 1];
      assert (a + b)[..|a + b| - 1] == a + b';
      assert (a + b)[|a + b| - 1] == b[|b| - 1];
      FinalizedFoldersAppend(a, b');
    }
  }

  /** The entries of two lists of trees, one after the other. */
  lemma {:induction false} EntriesOfAppend(a: seq<Dirent>, b: seq<Dirent>)
    ensures EntriesOf(a + b) == EntriesOf(a) + EntriesOf(b)
    decreases |b|
  {
    if b == [] {
      assert a + b == a;
    } else {
      var b', x := b[..|b| - 1], b[|b| - 1];
      assert (a + b)[..|a + b| - 1] == a + b';
      calc {
        EntriesOf(a + b);
        EntriesOf(a + b') + Entries(x);
        { EntriesOfAppend(a, b'); }
        (EntriesOf(a) + EntriesOf(b')) + Entries(x);
        EntriesOf(a) + (EntriesOf(b') + Entries(x));
        EntriesOf(a) + EntriesOf(b);
      }
    }
  }

  /** The recorded size of a finalized folder is the number of entries of its tree. */
  lemma {:induction false} FinalizedSizeCounts(d: Dirent)
    requires d.Folder? && Finalized(d)
    ensures d.size == |Entries(d)|
    decreases d, 1
  {
    SumSizesCount(d.subFolders);
  }

  /** Summing the recorded sizes of finalized folders counts their entries. */
  lemma {:induction false} SumSizesCount(s: seq<Dirent>)
    requires FinalizedFolders(s)
    ensures SumSizes(s) == |EntriesOf(s)|
    decreases s, 0
  {
    if s != [] {
      SumSizesCount(s[..|s| - 1]);
      FinalizedSizeCounts(s[|s| - 1]);
    }
  }

  /** computeSize's equation gives the entry count of the folder it finishes,
      whatever is recorded in the folder's own size field. */
  lemma FolderEntryCount(p: Path, subs: seq<Dirent>, docs: seq<Dirent>, size: nat)
    requires FinalizedFolders(subs)
    ensures SumSizes(subs) + |docs| + 1 == |Entries(Folder(p, subs, docs, size))|
  {
    SumSizesCount(subs);
  }
}
