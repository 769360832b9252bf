/** The size of a folder: a recursion over the folders that can be listed. */
module DirectorySizes {
  import opened Wrappers

  const MODULUS: nat := 0x1_0000_0000_0000_0000

  /** An entry of the file system: a file, a folder, or a folder that cannot be listed. */
  datatype Tree = Leaf(size: u64) | Branch(entries: seq<Tree>) | Unlisted

  /** The sizes of all files that are reached through folders that can be listed, flat. */
  function Files(t: Tree): seq<u64>
    decreases t
  {
    match t
    case Leaf(n) => [n]
    case Branch(entries) => FilesIn(entries)
    case Unlisted => []
  }

  function FilesIn(entries: seq<Tree>): seq<u64>
    decreases entries
  {
    if entries == [] then [] else FilesIn(entries[..|entries| - 1]) + Files(entries[|entries| - 1])
  }

  function Sum(sizes: seq<u64>): nat {
    if sizes == [] then 0 else sizes[0] + Sum(sizes[1..])
  }

  /** A cast to 64 bits. */
  function Wrap(n: nat): u64 {
    n % MODULUS
  }

  /** What a 64-bit counter shows for a folder; nothing for what cannot be listed. */
  function SizeOf(folder: Tree): Option<u64> {
    if folder.Branch? then Some(Wrap(Sum(Files(folder)))) else None
  }

  lemma {:induction false} SumOfConcat(a: seq<u64>, b: seq<u64>)
    ensures Sum(a + b) == Sum(a) + Sum(b)
  {
    if a == [] {
      assert a + b == b;
    } else {
      SumOfConcat(a[1..], b);
      assert (a + b)[1..] == a[1..] + b;
    }
  }

  lemma WrappedSum(a: nat, b: nat)
    ensures Wrap(Wrap(a) + Wrap(b)) == Wrap(a + b)
  {
  }

  lemma {:induction false} FilesOfConcat(a: seq<Tree>, b: seq<Tree>)
    ensures FilesIn(a + b) == FilesIn(a) + FilesIn(b)
  {
    if b == [] {
      assert a + b == a;
    } else {
      assert (a + b)[..|a + b| - 1] == a + b[..|b| - 1];
      FilesOfConcat(a, b[..|b| - 1]);
    }
  }

  lemma SumAround(before: seq<Tree>, middle: seq<Tree>, after: seq<Tree>)
    ensures Sum(FilesIn(before + middle + after)) == Sum(FilesIn(before)) + Sum(FilesIn(middle)) + Sum(FilesIn(after))
  {
    hide Sum, FilesIn;
    FilesOfConcat(before + middle, after);
    FilesOfConcat(before, middle);
    SumOfConcat(FilesIn(before) + FilesIn(middle), FilesIn(after));
    SumOfConcat(FilesIn(before), FilesIn(middle));
  }

  lemma SumOfOne(t: Tree)
    ensures Sum(FilesIn([t])) == match t
              case Branch(entries) => Sum(FilesIn(entries))
              case Leaf(n) => n
              case Unlisted => 0
    ensures Sum(FilesIn([])) == 0
  {
    assert [t][..0] == [];
    assert FilesIn([]) == [];
    assert [] + Files(t) == Files(t);
    assert t.Leaf? ==> Files(t)[1..] == [];
  }

  /** Where the files are makes no difference: a folder that can be listed counts as if its entries were
      in its place, one that cannot as if it were not there, and a file counts its size. This is all
      there is to the size of a folder. */
  lemma OnlyFilesCount(before: seq<Tree>, t: Tree, after: seq<Tree>)
    ensures var whole := SizeOf(Branch(before + [t] + after));
            match t
            case Branch(entries) => whole == SizeOf(Branch(before + entries + after))
            case Unlisted => whole == SizeOf(Branch(before + [] + after))
            case Leaf(n) => whole == Some((SizeOf(Branch(before + [] + after)).value + n) % MODULUS)
    ensures SizeOf(Branch([])) == Some(0)
  {
    SizeIsSum(before + [t] + after);
    SizeIsSum(before + [] + after);
    SizeIsSum([]);
    SumAround(before, [t], after);
    SumAround(before, [], after);
    SumOfOne(t);
    hide SizeOf, Sum, FilesIn, Wrap;
    match t
    case Branch(entries) => SizeIsSum(before + entries + after); SumAround(before, entries, after);
    case Unlisted =>
    case Leaf(n) => AddedAfterwards(Sum(FilesIn(before)) + Sum(FilesIn(after)), n);
  }

  lemma SizeIsSum(entries: seq<Tree>)
    ensures SizeOf(Branch(entries)) == Some(Sum(FilesIn(entries)) % MODULUS)
  {
    hide Sum, FilesIn;
  }

  lemma AddedAfterwards(a: nat, n: nat)
    ensures (a + n) % MODULUS == (a % MODULUS + n) % MODULUS
  {
  }

  function Before(entries: seq<Tree>, i: nat): u64
    requires i <= |entries|
  {
    Wrap(Sum(FilesIn(entries[..i])))
  }

  lemma OneMoreEntry(entries: seq<Tree>, i: nat)
    requires i < |entries|
    ensures Before(entries, i + 1) == Wrap(Before(entries, i) + Wrap(Sum(Files(entries[i]))))
  {
    hide Sum, Files, Wrap;
    assert entries[..i + 1][..i] == entries[..i];
    SumOfConcat(FilesIn(entries[..i]), Files(entries[i]));
    WrappedSum(Sum(FilesIn(entries[..i])), Sum(Files(entries[i])));
  }

  lemma WhatItAdds(before: nat, t: Tree)
    ensures t.Leaf? ==> Wrap(Sum(Files(t))) == t.size
    ensures t.Unlisted? ==> Wrap(Wrap(before) + Wrap(Sum(Files(t)))) == Wrap(before)
  {
    if t.Leaf? {
      assert [t.size][1..] == [];
    }
  }

  lemma SizeOfFolder(folder: Tree)
    ensures SizeOf(folder) == if folder.Branch? then Some(Wrap(Sum(FilesIn(folder.entries)))) else None
    ensures Wrap(Sum(FilesIn([]))) == 0
  {
  }

  /** Folders inside that cannot be listed are passed over; only the outermost one must be listed. */
  method GetDirectorySize(folder: Tree) returns (size: Option<u64>)
    ensures size == SizeOf(folder)
    decreases folder
  {
    hide FilesIn, Sum, Wrap;
    SizeOfFolder(folder);
    if !folder.Branch? {
      return None;
    }
    var entries := folder.entries;
    var currentDirSize: u64 := 0;
    assert entries[..0] == [];
    for i := 0 to |entries|
      invariant currentDirSize == Before(entries, i)
    {
      OneMoreEntry(entries, i);
      WhatItAdds(Sum(FilesIn(entries[..i])), entries[i]);
      if !entries[i].Leaf? {
        var subDirSize := GetDirectorySize(entries[i]);
        if subDirSize.Some? {
          currentDirSize := Wrap(currentDirSize + subDirSize.value);
        }
      } else {
        currentDirSize := Wrap(currentDirSize + entries[i].size);
      }
    }
    assert entries[..|entries|] == entries;
    return Some(currentDirSize);
  }
}
