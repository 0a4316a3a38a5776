/**
 * A folder under construction: the two lists of pending children that the
 * directory listing fills, their merge, the join that freezes them into the
 * finalized lists, and the size computation that follows.
 */
module Folders {
  import opened Optional
  import opened Dirents

  /** A pending child, already settled: it completed with an entry or its
      construction failed. */
  datatype Future = Completed(value: Dirent) | Failed

  /** The success condition of waiting for all futures: none of them failed. */
  predicate AllCompleted(fs: seq<Future>)
    ensures AllCompleted(fs) <==> Failed !in fs
  {
    forall i :: 0 <= i < |fs| ==> fs[i].Completed?
  }

  /** The values of settled futures, in list order. */
  function Joined(fs: seq<Future>): (r: seq<Dirent>)
    requires AllCompleted(fs)
    ensures |r| == |fs|
    ensures forall i :: 0 <= i < |fs| ==> fs[i] == Completed(r[i])
  {
    if fs == [] then [] else Joined(fs[..|fs| - 1]) + [fs[|fs| - 1].value]
  }

  /** The listing of a directory with the directory itself left out, so
      that the recursion over subdirectories does not revisit it. */
  function WithoutRoot(listing: seq<Path>, rootPath: Path): (r: seq<Path>)
    ensures forall p :: p in r <==> p in listing && p != rootPath
    ensures forall p :: p != rootPath ==> multiset(r)[p] == multiset(listing)[p]
    ensures rootPath !in r
  {
    if listing == [] then []
    else
      var rest := WithoutRoot(listing[..|listing| - 1], rootPath);
      var p := listing[|listing| - 1];
      assert listing == listing[..|listing| - 1] + [p];
      if p == rootPath then rest else rest + [p]
  }

  /** Leaving out the root commutes with splitting the listing: the order of
      the remaining paths is the order of the listing. */
  lemma {:induction false} WithoutRootAppend(a: seq<Path>, b: seq<Path>, rootPath: Path)
    ensures WithoutRoot(a + b, rootPath) == WithoutRoot(a, rootPath) + WithoutRoot(b, rootPath)
    decreases |b|
  {
    if b == [] {
      assert a + b == a;
    } else {
      var b' := b[..|b| - 1];
      assert (a + b)[..|a + b| - 1] == a + b';
      assert (a + b)[|a + b| - 1] == b[|b| - 1];
      WithoutRootAppend(a, b', rootPath);
    }
  }

  /** A listing that does not mention the root passes through unchanged. */
  lemma {:induction false} WithoutRootKeeps(listing: seq<Path>, rootPath: Path)
    requires rootPath !in listing
    ensures WithoutRoot(listing, rootPath) == listing
    decreases |listing|
  {
    if listing != [] {
      WithoutRootKeeps(listing[..|listing| - 1], rootPath);
      assert listing == listing[..|listing| - 1] + [listing[|listing| - 1]];
    }
  }

  class Folder {
    /** Futures to the subfolders, in the order their paths were added. */
    var subFolderFutures: seq<Future>
    /** Futures to the documents, in the order their paths were added. */
    var documentFutures: seq<Future>
    /** The subfolders; absent until the join. */
    var subFolders: Option<seq<Dirent>>
    /** The documents; absent until the join. */
    var documents: Option<seq<Dirent>>
    /** The total number of entries in this recursively structured folder. */
    var size: nat
    /** The folder's path; absent until the builder sets it. */
    var path: Option<Path>

    constructor ()
      ensures subFolderFutures == [] && documentFutures == []
      ensures subFolders == None && documents == None
      ensures size == 0 && path == None
    {
      subFolderFutures := [];
      documentFutures := [];
      subFolders := None;
      documents := None;
      size := 0;
      path := None;
    }

    /** Adds one listed path as a pending child: a directory becomes a
        pending subfolder built by `fromDirectory`, anything else a pending
        document built by `fromPath`. */
    method AddEntry(entry: Path, isDirectory: Path -> bool,
                    fromDirectory: Path -> Future, fromPath: Path -> Future)
      modifies this
      ensures isDirectory(entry) ==>
        subFolderFutures == old(subFolderFutures) + [fromDirectory(entry)] &&
        documentFutures == old(documentFutures)
      ensures !isDirectory(entry) ==>
        documentFutures == old(documentFutures) + [fromPath(entry)] &&
        subFolderFutures == old(subFolderFutures)
      ensures subFolders == old(subFolders) && documents == old(documents)
      ensures size == old(size) && path == old(path)
    {
      if isDirectory(entry) {
        subFolderFutures := subFolderFutures + [fromDirectory(entry)];
      } else {
        documentFutures := documentFutures + [fromPath(entry)];
      }
    }

    /** Merges the pending children of `folder` after this folder's own and
        returns this folder. */
    method AddAll(folder: Folder) returns (r: Folder)
      modifies this
      ensures r == this
      ensures subFolderFutures == old(subFolderFutures) + old(folder.subFolderFutures)
      ensures documentFutures == old(documentFutures) + old(folder.documentFutures)
      ensures subFolders == old(subFolders) && documents == old(documents)
      ensures size == old(size) && path == old(path)
      ensures folder != this ==>
        folder.subFolderFutures == old(folder.subFolderFutures) &&
        folder.documentFutures == old(folder.documentFutures)
    {
      subFolderFutures := subFolderFutures + folder.subFolderFutures;
      documentFutures := documentFutures + folder.documentFutures;
      r := this;
    }

    /** Waits for every pending child. If they all completed, freezes their
        values into the finalized lists, in pending order, records the number
        of immediate children as the size and reports completion; if any
        failed, the join fails and nothing is set. */
    method JoinAll() returns (completed: bool)
      modifies this
      ensures completed == (AllCompleted(old(subFolderFutures)) && AllCompleted(old(documentFutures)))
      ensures subFolderFutures == old(subFolderFutures) && documentFutures == old(documentFutures)
      ensures path == old(path)
      ensures completed ==>
        subFolders == Some(Joined(subFolderFutures)) &&
        documents == Some(Joined(documentFutures)) &&
        size == |subFolderFutures| + |documentFutures|
      ensures !completed ==>
        subFolders == old(subFolders) && documents == old(documents) && size == old(size)
    {
      completed := AllCompleted(subFolderFutures) && AllCompleted(documentFutures);
      if completed {
        var subs := Joined(subFolderFutures);
        var docs := Joined(documentFutures);
        subFolders := Some(subs);
        documents := Some(docs);
        size := |subs| + |docs|;
      }
    }

    /** Records the path of the folder (done once its children are joined). */
    method SetPath(p: Path)
      modifies this
      ensures path == Some(p)
      ensures subFolderFutures == old(subFolderFutures) && documentFutures == old(documentFutures)
      ensures subFolders == old(subFolders) && documents == old(documents) && size == old(size)
    {
      path := Some(p);
    }

    /** Sets the size to one for the folder itself, plus its subfolders'
        recorded sizes, plus its number of documents. When the subfolders
        are finalized this is the number of entries of the folder's tree. */
    method ComputeSize()
      requires subFolders.Some? && documents.Some?
      requires AllFolders(subFolders.value)
      modifies this
      ensures subFolderFutures == old(subFolderFutures) && documentFutures == old(documentFutures)
      ensures subFolders == old(subFolders) && documents == old(documents) && path == old(path)
      ensures size == SumSizes(subFolders.value) + |documents.value| + 1
      ensures subFolders.value == [] && documents.value == [] ==> size == 1
      ensures FinalizedFolders(subFolders.value) ==>
        size == 1 + |EntriesOf(subFolders.value)| + |documents.value|
    {
      size := SumSizes(subFolders.value) + |documents.value| + 1;
      if FinalizedFolders(subFolders.value) {
        SumSizesCount(subFolders.value);
      }
    }

    /** The finalized folder as a value. */
    function ToDirent(): Dirent
      reads this
      requires subFolders.Some? && documents.Some? && path.Some?
    {
      Dirent.Folder(path.value, subFolders.value, documents.value, size)
    }
  }

  /** The synchronous part of building a folder from its pending children:
      join, set the path, compute the size. On success the result is the
      finalized folder whose recorded size counts its entries. */
  method Finish(folder: Folder, rootPath: Path) returns (r: Option<Dirent>)
    requires forall i :: 0 <= i < |folder.subFolderFutures| ==>
      folder.subFolderFutures[i].Completed? ==> folder.subFolderFutures[i].value.Folder?
    modifies folder
    ensures r.Some? <==> AllCompleted(old(folder.subFolderFutures)) && AllCompleted(old(folder.documentFutures))
    ensures r.Some? ==>
      r.value.Folder? && r.value.path == rootPath &&
      r.value.subFolders == Joined(old(folder.subFolderFutures)) &&
      r.value.documents == Joined(old(folder.documentFutures))
    ensures r.Some? && AllDocuments(r.value.documents) &&
            (forall i :: 0 <= i < |r.value.subFolders| ==> Finalized(r.value.subFolders[i]))
            ==> Finalized(r.value) && r.value.size == |Entries(r.value)|
  {
    var completed := folder.JoinAll();
    if !completed {
      return None;
    }
    folder.SetPath(rootPath);
    folder.ComputeSize();
    r := Some(folder.ToDirent());
    var subs := r.value.subFolders;
    if AllDocuments(r.value.documents) && forall i :: 0 <= i < |subs| ==> Finalized(subs[i]) {
      FinalizedFoldersAll(subs);
      FinalizedSizeCounts(r.value);
    }
  }
}
