/** The table of open files: handles, and reference counts per inode. */
module HandleTable {

  datatype FileEntry = FileEntry(id: nat, handle: nat, directIO: bool)

  datatype Slot = Nil | Open(fe: FileEntry)

  /** 1 if the slot is an open handle on inode id that uses the caches. */
  function Refers(s: Slot, id: nat): nat { if s.Open? && s.fe.id == id && !s.fe.directIO then 1 else 0 }

  /** How many open cached handles there are on inode id. */
  function Count(t: seq<Slot>, id: nat): nat {
    if t == [] then 0 else Count(t[..|t| - 1], id) + Refers(t[|t| - 1], id)
  }

  lemma {:induction false} CountUpdate(t: seq<Slot>, i: nat, s: Slot, id: nat)
    requires i < |t|
    ensures Count(t[i := s], id) == Count(t, id) - Refers(t[i], id) + Refers(s, id)
  {
    var last := |t| - 1;
    if i == last {
      assert t[i := s][..last] == t[..last];
    } else {
      CountUpdate(t[..last], i, s, id);
      assert t[i := s][..last] == t[..last][i := s];
    }
  }

  lemma {:induction false} CountNone(t: seq<Slot>, id: nat)
    requires forall i :: 0 <= i < |t| ==> Refers(t[i], id) == 0
    ensures Count(t, id) == 0
  {
    if t != [] { CountNone(t[..|t| - 1], id); }
  }

  lemma {:induction false} CountSome(t: seq<Slot>, i: nat, id: nat)
    requires i < |t| && Refers(t[i], id) == 1
    ensures Count(t, id) >= 1
  {
    if i < |t| - 1 { CountSome(t[..|t| - 1], i, id); }
  }

  /** The reference counts are those of the table. */
  ghost predicate Counted(refer: map<nat, nat>, t: seq<Slot>) {
    forall id :: Count(t, id) == if id in refer then refer[id] else 0
  }

  /** No count is kept at zero. */
  ghost predicate Positive(refer: map<nat, nat>) { forall id :: id in refer ==> refer[id] >= 1 }

  lemma Recount(refer: map<nat, nat>, t: seq<Slot>, refer': map<nat, nat>, i: nat, s: Slot)
    requires Counted(refer, t) && i < |t|
    requires forall id ::
               (if id in refer' then refer'[id] else 0) ==
               (if id in refer then refer[id] else 0) - Refers(t[i], id) + Refers(s, id)
    ensures Counted(refer', t[i := s])
  {
    forall id ensures Count(t[i := s], id) == if id in refer' then refer'[id] else 0 {
      CountUpdate(t, i, s, id);
    }
  }

  class FileCache {
    var fileEntryIndex: nat
    const fileEntryVec: array<Slot>
    var fileRefer: map<nat, nat>

    /** The free index is the lowest free slot, or the table size when the table is full. */
    ghost predicate Lowest()
      reads this, fileEntryVec
    {
      && fileEntryIndex <= fileEntryVec.Length
      && (forall j :: 0 <= j < fileEntryIndex ==> fileEntryVec[j].Open?)
      && (fileEntryIndex < fileEntryVec.Length ==> fileEntryVec[fileEntryIndex].Nil?)
    }

    ghost predicate Valid()
      reads this, fileEntryVec
    {
      && Lowest() && Counted(fileRefer, fileEntryVec[..]) && Positive(fileRefer)
      && (forall j :: 0 <= j < fileEntryVec.Length && fileEntryVec[j].Open? ==> fileEntryVec[j].fe.handle == j)
    }

    constructor (openFileMax: nat)
      ensures Valid() && fresh(fileEntryVec) && fileEntryVec.Length == openFileMax
      ensures forall j :: 0 <= j < openFileMax ==> fileEntryVec[j].Nil?
    {
      fileEntryIndex := 0;
      fileEntryVec := new Slot[openFileMax](_ => Nil);
      fileRefer := map[];
      new;
      forall id ensures Count(fileEntryVec[..], id) == 0 {
        CountNone(fileEntryVec[..], id);
      }
    }

    method AddRef(id: nat)
      requires Positive(fileRefer)
      modifies `fileRefer
      ensures Positive(fileRefer)
      ensures fileRefer == old(fileRefer)[id := if id in old(fileRefer) then old(fileRefer)[id] + 1 else 1]
    {
      if id !in fileRefer {
        fileRefer := fileRefer[id := 1];
      } else {
        fileRefer := fileRefer[id := fileRefer[id] + 1];
      }
    }

    method DelRef(id: nat)
      requires Positive(fileRefer) && id in fileRefer
      modifies `fileRefer
      ensures Positive(fileRefer)
      ensures fileRefer == if old(fileRefer)[id] == 1 then old(fileRefer) - {id}
              else old(fileRefer)[id := old(fileRefer)[id] - 1]
    {
      if fileRefer[id] == 1 {
        fileRefer := fileRefer - {id};
      } else {
        fileRefer := fileRefer[id := fileRefer[id] - 1];
      }
    }

    /** The first free slot at or after the old index. */
    method GetMinEntryIndex() returns (next: nat)
      requires fileEntryIndex <= fileEntryVec.Length
      ensures fileEntryIndex <= next <= fileEntryVec.Length
      ensures forall j :: fileEntryIndex <= j < next ==> fileEntryVec[j].Open?
      ensures next < fileEntryVec.Length ==> fileEntryVec[next].Nil?
    {
      next := fileEntryIndex;
      while next < fileEntryVec.Length && !fileEntryVec[next].Nil?
        invariant fileEntryIndex <= next <= fileEntryVec.Length
        invariant forall j :: fileEntryIndex <= j < next ==> fileEntryVec[j].Open?
      {
        next := next + 1;
      }
    }

    /** NewFile gives the lowest free handle, and fails only when every slot is taken. */
    method NewFile(id: nat, directIO: bool) returns (fd: nat, err: bool)
      requires Valid()
      modifies this, fileEntryVec
      ensures Valid()
      ensures err <==> forall j :: 0 <= j < fileEntryVec.Length ==> old(fileEntryVec[j]).Open?
      ensures err ==> fileEntryVec[..] == old(fileEntryVec[..])
      ensures !err ==> fd < fileEntryVec.Length && old(fileEntryVec[fd]).Nil?
      ensures !err ==> forall j :: 0 <= j < fd ==> old(fileEntryVec[j]).Open?
      ensures !err ==> fileEntryVec[..] == old(fileEntryVec[..])[fd := Open(FileEntry(id, fd, directIO))]
    {
      if fileEntryIndex >= fileEntryVec.Length {
        return 0, true;
      }
      fd, err := fileEntryIndex, false;
      var s := Open(FileEntry(id, fd, directIO));
      fileEntryVec[fd] := s;
      assert fileEntryVec[..] == old(fileEntryVec[..])[fd := s];
      if !directIO {
        AddRef(id);
      }
      Recount(old(fileRefer), old(fileEntryVec[..]), fileRefer, fd, s);
      fileEntryIndex := GetMinEntryIndex();
    }

    method GetFileEntry(handle: nat) returns (fe: FileEntry, err: bool)
      ensures err <==> handle >= fileEntryVec.Length || fileEntryVec[handle].Nil?
      ensures !err ==> fileEntryVec[handle] == Open(fe)
    {
      if handle >= fileEntryVec.Length || fileEntryVec[handle].Nil? {
        return FileEntry(0, 0, true), true;
      }
      return fileEntryVec[handle].fe, false;
    }

    lemma Referred(handle: nat)
      requires Valid() && handle < fileEntryVec.Length && fileEntryVec[handle].Open? &&
              !fileEntryVec[handle].fe.directIO
      ensures fileEntryVec[handle].fe.id in fileRefer
    {
      CountSome(fileEntryVec[..], handle, fileEntryVec[handle].fe.id);
    }

    method CloseFile(handle: nat) returns (err: bool)
      requires Valid()
      modifies this, fileEntryVec
      ensures Valid()
      ensures err <==> handle >= fileEntryVec.Length || old(fileEntryVec[handle]).Nil?
      ensures fileEntryVec[..] == if err then old(fileEntryVec[..]) else old(fileEntryVec[..])[handle := Nil]
    {
      if handle >= fileEntryVec.Length || fileEntryVec[handle].Nil? {
        return true;
      }
      var fe := fileEntryVec[handle].fe;
      if !fe.directIO {
        Referred(handle);
        DelRef(fe.id);
      }
      fileEntryVec[handle] := Nil;
      assert fileEntryVec[..] == old(fileEntryVec[..])[handle := Nil];
      Recount(old(fileRefer), old(fileEntryVec[..]), fileRefer, handle, Nil);
      if handle < fileEntryIndex {
        fileEntryIndex := handle;
      }
      err := false;
    }

    /** The assertion of LastRef holds for every open cached handle; the answer is whether it is the only one. */
    method IsLastRefer(fe: FileEntry) returns (last: bool)
      requires Valid() && fe.handle < fileEntryVec.Length && fileEntryVec[fe.handle] == Open(fe) && !fe.directIO
      ensures last <==> forall j :: 0 <= j < fileEntryVec.Length && j != fe.handle ==>
              Refers(fileEntryVec[j], fe.id) == 0
    {
      Referred(fe.handle);
      last := fileRefer[fe.id] == 1;
      OnlyOne(fileEntryVec[..], fe.handle, fe.id);
      assert forall j :: 0 <= j < fileEntryVec.Length ==> fileEntryVec[..][j] == fileEntryVec[j];
    }
  }

  /** One referring slot is the only one exactly when the count is 1. */
  lemma OnlyOne(t: seq<Slot>, i: nat, id: nat)
    requires i < |t| && Refers(t[i], id) == 1
    ensures Count(t, id) == 1 <==> forall j :: 0 <= j < |t| && j != i ==> Refers(t[j], id) == 0
  {
    CountUpdate(t, i, Nil, id);
    var u := t[i := Nil];
    if j :| 0 <= j < |t| && j != i && Refers(t[j], id) != 0 {
      CountSome(u, j, id);
    } else {
      CountNone(u, id);
    }
  }
}
