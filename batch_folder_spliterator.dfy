/**
 * The stack-driven cursor over a finalized folder and the splitter that
 * detaches ever larger batches of it for parallel consumption.
 */
module BatchFolderSpliterators {
  import opened Optional
  import opened Dirents

  /** The entries a cursor with the given folder and document stacks (and
      no held entry) still produces, in order. A folder is popped from the
      end of its stack and its subfolders and documents are pushed on the
      ends of the two stacks; a document is popped, also from the end, only
      once no folder is left. */
  function Pending(folders: seq<Dirent>, docs: seq<Dirent>): (r: seq<Dirent>)
    ensures r == [] <==> folders == [] && docs == []
    decreases |EntriesOf(folders)| + |docs|
  {
    if |folders| > 0 then
      var f := folders[|folders| - 1];
      var rest := folders[..|folders| - 1];
      EntriesOfAppend(rest, SubFoldersOf(f));
      assert |Entries(f)| == 1 + |EntriesOf(SubFoldersOf(f))| + |DocumentsOf(f)|;
      [f] + Pending(rest + SubFoldersOf(f), docs + DocumentsOf(f))
    else if |docs| > 0 then
      [docs[|docs| - 1]] + Pending([], docs[..|docs| - 1])
    else
      []
  }

  /** The order in which a fresh cursor over `root` produces the tree. */
  function Traversal(root: Dirent): (r: seq<Dirent>)
    ensures |r| > 0 && r[0] == root
  {
    Pending([root], [])
  }

  /** The stacks hold each pending entry exactly once: whatever is yet to
      come is the entries of the stacked folders' trees and the stacked
      documents. */
  lemma {:induction false} PendingContents(folders: seq<Dirent>, docs: seq<Dirent>)
    ensures multiset(Pending(folders, docs)) == multiset(EntriesOf(folders)) + multiset(docs)
    ensures |Pending(folders, docs)| == |EntriesOf(folders)| + |docs|
    decreases |EntriesOf(folders)| + |docs|
  {
    if |folders| > 0 {
      var f := folders[|folders| - 1];
      var rest := folders[..|folders| - 1];
      var folders', docs' := rest + SubFoldersOf(f), docs + DocumentsOf(f);
      PopFolder(folders, docs);
      PendingContents(folders', docs');
      calc {
        multiset(Pending(folders, docs));
        multiset([f]) + multiset(Pending(folders', docs'));
        multiset([f]) + multiset(EntriesOf(rest)) + multiset(EntriesOf(SubFoldersOf(f)))
          + multiset(docs) + multiset(DocumentsOf(f));
        multiset(EntriesOf(rest)) + multiset(Entries(f)) + multiset(docs);
        multiset(EntriesOf(folders)) + multiset(docs);
      }
    } else if |docs| > 0 {
      assert folders == [];
      PendingDocuments(docs);
      ReversedContents(docs);
    }
  }

  /** Popping a folder: it comes next, then what the stacks with its
      children pushed produce; its tree is split between the two. */
  lemma PopFolder(folders: seq<Dirent>, docs: seq<Dirent>)
    requires |folders| > 0
    ensures var f, rest := folders[|folders| - 1], folders[..|folders| - 1];
      Pending(folders, docs) == [f] + Pending(rest + SubFoldersOf(f), docs + DocumentsOf(f)) &&
      EntriesOf(folders) == EntriesOf(rest) + Entries(f) &&
      EntriesOf(rest + SubFoldersOf(f)) == EntriesOf(rest) + EntriesOf(SubFoldersOf(f)) &&
      Entries(f) == [f] + EntriesOf(SubFoldersOf(f)) + DocumentsOf(f) &&
      |EntriesOf(rest + SubFoldersOf(f))| + |docs + DocumentsOf(f)| < |EntriesOf(folders)| + |docs|
  {
    var f, rest := folders[|folders| - 1], folders[..|folders| - 1];
    EntriesOfAppend(rest, SubFoldersOf(f));
  }

  /** A fresh cursor produces its root, then what the root's subfolders and
      documents, stacked as they are, produce. */
  lemma TraversalUnfold(root: Dirent)
    requires root.Folder?
    ensures Traversal(root) == [root] + Pending(root.subFolders, root.documents)
  {
    assert [root][..0] + root.subFolders == root.subFolders;
    assert [] + root.documents == root.documents;
  }

  /** Driving a cursor over `root` to the end produces every entry of the
      tree exactly once; for a finalized folder their number is its
      recorded size. */
  lemma TraversalCoversTree(root: Dirent)
    ensures multiset(Traversal(root)) == multiset(Entries(root))
    ensures |Traversal(root)| == |Entries(root)|
    ensures root.Folder? && Finalized(root) ==> |Traversal(root)| == root.size
  {
    PendingContents([root], []);
    assert EntriesOf([root]) == Entries(root);
    if root.Folder? && Finalized(root) {
      FinalizedSizeCounts(root);
    }
  }

  /** True when no document comes before a folder. */
  predicate FoldersFirst(s: seq<Dirent>)
  {
    forall i, j :: 0 <= i < j < |s| && s[i].Document? ==> s[j].Document?
  }

  /** With documents only on the document stack, documents are produced only
      after the last folder. */
  lemma {:induction false} PendingFoldersFirst(folders: seq<Dirent>, docs: seq<Dirent>)
    requires FinalizedFolders(folders) && AllDocuments(docs)
    ensures FoldersFirst(Pending(folders, docs))
    decreases |EntriesOf(folders)| + |docs|
  {
    if |folders| > 0 {
      var f := folders[|folders| - 1];
      var rest := folders[..|folders| - 1];
      EntriesOfAppend(rest, SubFoldersOf(f));
      assert |Entries(f)| == 1 + |EntriesOf(SubFoldersOf(f))| + |DocumentsOf(f)|;
      FinalizedFoldersAppend(rest, SubFoldersOf(f));
      assert AllDocuments(docs + DocumentsOf(f));
      PendingFoldersFirst(rest + SubFoldersOf(f), docs + DocumentsOf(f));
    } else if |docs| > 0 {
      PendingFoldersFirst([], docs[..|docs| - 1]);
      PendingDocuments(docs);
    }
  }

  /** With no folder stacked, what remains is the stacked documents, last first. */
  lemma {:induction false} PendingDocuments(docs: seq<Dirent>)
    ensures Pending([], docs) == Reversed(docs)
    decreases |docs|
  {
    if |docs| > 0 {
      PendingDocuments(docs[..|docs| - 1]);
    }
  }

  /** Reversing keeps the entries and their multiplicities. */
  lemma {:induction false} ReversedContents(s: seq<Dirent>)
    ensures multiset(Reversed(s)) == multiset(s)
    decreases |s|
  {
    if s != [] {
      ReversedContents(s[..|s| - 1]);
      assert s == s[..|s| - 1] + [s[|s| - 1]];
    }
  }

  /** The list read from its end. */
  function Reversed(s: seq<Dirent>): (r: seq<Dirent>)
    ensures |r| == |s|
    ensures forall i :: 0 <= i < |s| ==> r[i] == s[|s| - 1 - i]
  {
    if s == [] then [] else [s[|s| - 1]] + Reversed(s[..|s| - 1])
  }

  /** A finalized folder's traversal starts with the folder, puts every
      folder of its tree before every document, and for a folder without
      subfolders lists the documents last-first. */
  lemma TraversalOrder(root: Dirent)
    requires root.Folder? && Finalized(root)
    ensures |Traversal(root)| > 0 && Traversal(root)[0] == root
    ensures FoldersFirst(Traversal(root))
    ensures root.subFolders == [] ==> Traversal(root) == [root] + Reversed(root.documents)
  {
    assert FinalizedFolders([root]);
    PendingFoldersFirst([root], []);
    TraversalUnfold(root);
    PendingDocuments(root.documents);
  }

  /** The entries a cursor still produces: the held entry, if any, then
      those of its stacks. */
  function Rest(current: Option<Dirent>, folders: seq<Dirent>, docs: seq<Dirent>): seq<Dirent>
  {
    (if current.Some? then [current.value] else []) + Pending(folders, docs)
  }

  /** Walks a finalized folder: a held current entry plus a folder stack and
      a document stack. */
  class BFSIterator {
    var current: Option<Dirent>
    var folders: seq<Dirent>
    var docs: seq<Dirent>
    /** The entries still to be produced, in order. */
    ghost var remaining: seq<Dirent>

    ghost predicate Valid()
      reads this
    {
      FinalizedFolders(folders) && AllDocuments(docs) &&
      remaining == Rest(current, folders, docs)
    }

    /** Holds the root as the current entry and copies its subfolders and
        documents onto the stacks. */
    constructor (root: Dirent)
      requires root.Folder? && Finalized(root)
      ensures Valid()
      ensures current == Some(root) && folders == root.subFolders && docs == root.documents
      ensures remaining == Traversal(root)
    {
      current := Some(root);
      folders := root.subFolders;
      docs := root.documents;
      remaining := Traversal(root);
      TraversalUnfold(root);
    }

    /** Refreshes the current entry when none is held and reports whether
        there is one. The sequence still to come does not change. */
    method HasNext() returns (b: bool)
      requires Valid()
      modifies this
      ensures Valid()
      ensures remaining == old(remaining)
      ensures b == current.Some? && b == (remaining != [])
      ensures b ==> current == Some(remaining[0])
      ensures old(current).Some? ==>
        current == old(current) && folders == old(folders) && docs == old(docs)
      ensures old(current).None? && |old(folders)| > 0 ==>
        var n := |old(folders)|;
        current == Some(old(folders)[n - 1]) &&
        folders == old(folders)[..n - 1] + old(folders)[n - 1].subFolders &&
        docs == old(docs) + old(folders)[n - 1].documents
      ensures old(current).None? && |old(folders)| == 0 && |old(docs)| > 0 ==>
        var n := |old(docs)|;
        current == Some(old(docs)[n - 1]) && folders == [] && docs == old(docs)[..n - 1]
      ensures old(current).None? && |old(folders)| == 0 && |old(docs)| == 0 ==>
        current == None && folders == [] && docs == []
    {
      if current.None? {
        if |folders| > 0 {
          var f := folders[|folders| - 1];
          folders := folders[..|folders| - 1];
          assert Finalized(f);
          FinalizedFoldersAppend(folders, f.subFolders);
          folders := folders + f.subFolders;
          docs := docs + f.documents;
          current := Some(f);
        } else if |docs| > 0 {
          current := Some(docs[|docs| - 1]);
          docs := docs[..|docs| - 1];
        }
      }
      b := current.Some?;
    }

    /** Hands out the current entry (absent if none is held) and clears it. */
    method Next() returns (d: Option<Dirent>)
      requires Valid()
      modifies this
      ensures Valid()
      ensures d == old(current) && current == None
      ensures folders == old(folders) && docs == old(docs)
      ensures remaining == if d.Some? then old(remaining)[1..] else old(remaining)
    {
      d := current;
      current := None;
      remaining := if d.Some? then remaining[1..] else remaining;
    }
  }

  /** Moving the first of the entries still to come onto the end of those
      taken leaves their concatenation unchanged. Stated once here, it spares
      the loop of `SplitBatch` a search over sequence equalities. */
  lemma MoveFirst(taken: seq<Dirent>, rest: seq<Dirent>)
    requires |rest| > 0
    ensures taken + rest == (taken + [rest[0]]) + rest[1..]
  {
    assert rest == [rest[0]] + rest[1..];
  }

  /** The first batch size: the size of the tree shared out among the
      processors, rounded down. */
  function InitialBatchSize(size: nat, availableProcessors: nat): (r: nat)
    requires availableProcessors >= 1
    ensures r * availableProcessors <= size < (r + 1) * availableProcessors
    ensures availableProcessors == 1 ==> r == size
    ensures size < availableProcessors ==> r == 0
  {
    size / availableProcessors
  }

  class BatchFolderSpliterator {
    /** The size of the next batch, doubled every time it is used. */
    var batchSize: nat
    /** The size estimate given at construction: the root's recorded size. */
    const estimatedSize: nat
    const cursor: BFSIterator

    ghost predicate Valid()
      reads cursor
    {
      cursor.Valid()
    }

    /** The entries this spliterator still covers, in order. */
    ghost function Remaining(): seq<Dirent>
      reads cursor
    {
      cursor.remaining
    }

    constructor (folder: Dirent, availableProcessors: nat)
      requires folder.Folder? && Finalized(folder)
      requires availableProcessors >= 1
      ensures Valid() && fresh(cursor)
      ensures estimatedSize == folder.size
      ensures batchSize == InitialBatchSize(folder.size, availableProcessors)
      ensures Remaining() == Traversal(folder)
      ensures |Remaining()| == estimatedSize
    {
      estimatedSize := folder.size;
      batchSize := folder.size / availableProcessors;
      cursor := new BFSIterator(folder);
      TraversalCoversTree(folder);
    }

    /** Produces the next entry, if there is one, for the consumer. */
    method TryAdvance() returns (advanced: bool, entry: Option<Dirent>)
      requires Valid()
      modifies cursor
      ensures Valid()
      ensures advanced == (old(Remaining()) != [])
      ensures advanced ==> entry == Some(old(Remaining())[0]) && Remaining() == old(Remaining())[1..]
      ensures !advanced ==> entry == None && Remaining() == old(Remaining())
    {
      var has := cursor.HasNext();
      if has {
        entry := cursor.Next();
        advanced := true;
      } else {
        entry := None;
        advanced := false;
      }
    }

    /** Detaches the next batch, or answers None when nothing is left. */
    method TrySplit() returns (batch: Option<seq<Dirent>>)
      requires Valid()
      modifies this, cursor
      ensures Valid()
      ensures batch.None? <==> old(Remaining()) == []
      ensures batch.None? ==> Remaining() == old(Remaining()) && batchSize == old(batchSize)
      ensures batch.Some? ==>
        |batch.value| == if old(batchSize) <= |old(Remaining())| then old(batchSize) else |old(Remaining())|
      ensures batch.Some? ==>
        old(Remaining()) == batch.value + Remaining() && batchSize == 2 * old(batchSize)
    {
      var has := cursor.HasNext();
      if has {
        var b := SplitBatch();
        batch := Some(b);
      } else {
        batch := None;
      }
    }

    /** Moves up to `batchSize` entries from the cursor into a batch of their
        own, then doubles `batchSize`. */
    method SplitBatch() returns (batch: seq<Dirent>)
      requires Valid()
      modifies this, cursor
      ensures Valid()
      ensures |batch| == if old(batchSize) <= |old(Remaining())| then old(batchSize) else |old(Remaining())|
      ensures old(Remaining()) == batch + Remaining()
      ensures batchSize == 2 * old(batchSize)
    {
      ghost var todo := Remaining();
      batch := [];
      var index := 0;
      while index < batchSize
        modifies cursor
        invariant cursor.Valid()
        invariant |batch| == index <= batchSize
        invariant todo == batch + cursor.remaining
        decreases batchSize - index
      {
        var has := cursor.HasNext();
        if !has {
          break;
        }
        ghost var before := cursor.remaining;
        var d := cursor.Next();
        MoveFirst(batch, before);
        batch := batch + [d.value];
        index := index + 1;
      }
      batchSize := batchSize + batchSize;
    }
  }
}
