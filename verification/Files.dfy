/** How open handles drive the two caches: Close and Truncate. */
module Files {
  import opened FlatFile
  import opened ReadMerge
  import opened HandleTable
  import opened WriteCache

  class Mount {
    const files: FileCache
    const cached: bool                // there is a read-write cache
    var wCache: map<nat, WCache>      // write-cache file buffers by inode
    var rCache: map<nat, Blocks>      // read-cache file buffers by inode
    var faults: nat                   // how many more server calls on inodes without a write buffer will fail

    constructor (openFileMax: nat, useCache: bool, f: nat)
      ensures fresh(files) && fresh(files.fileEntryVec) && files.Valid() && wCache == map[] && rCache == map[]
      ensures cached == useCache && faults == f
    {
      files := new FileCache(openFileMax);
      cached, wCache, rCache, faults := useCache, map[], map[], f;
    }

    /** Release: every cached read block of the inode is given back. */
    method Release(id: nat)
      modifies `rCache
      ensures rCache == if id in old(rCache) then old(rCache)[id := map[]] else old(rCache)
    {
      if id in rCache {
        var left := rCache[id].Keys;
        while left != {}
          invariant id in rCache && left == rCache[id].Keys && rCache == old(rCache)[id := rCache[id]]
          decreases |left|
        {
          var b :| b in left;
          rCache := rCache[id := rCache[id] - {b}];
          left := left - {b};
        }
        assert rCache[id] == map[];
      }
    }

    /** The read cache gives the blocks back and forgets the inode. */
    method DropReads(id: nat)
      modifies `rCache
      ensures rCache == old(rCache) - {id}
    {
      Release(id);
      rCache := rCache - {id};
    }

    /** The view is still f, and unless err is set the server has it and nothing is buffered. */
    static ghost predicate Flushed(c: WCache, f: Content, err: bool)
      reads c, c.locks
    {
      c.Valid() && AllIdle(c.m) && c.FileView() == f && (!err ==> c.server == f && c.bufferMap == map[])
    }

    /** Flush of one inode: its view stays, and on success is what the server has. */
    method FlushInode(ghost t: nat, id: nat) returns (err: bool)
      requires id in wCache ==> wCache[id].Valid() && AllIdle(wCache[id].m) && t !in wCache[id].cfg.workers
      modifies if id in wCache then {wCache[id], wCache[id].locks} else {}
      ensures id in wCache ==> Flushed(wCache[id], old(wCache[id].FileView()), err)
      ensures id in wCache ==> wCache[id].faults <= old(wCache[id].faults)
      ensures err ==> id in wCache && wCache[id].faults < old(wCache[id].faults)
    {
      if id !in wCache {
        return false;
      }
      err := wCache[id].Flush(t);
    }

    /** RWCache.Close: release and drop the read buffers, flush and drop the write buffers. */
    method CloseInode(ghost t: nat, id: nat) returns (err: bool)
      requires id in wCache ==> wCache[id].Valid() && AllIdle(wCache[id].m) && t !in wCache[id].cfg.workers
      modifies `wCache, `rCache, if id in wCache then {wCache[id], wCache[id].locks} else {}
      ensures rCache == old(rCache) - {id} && wCache == if err then old(wCache) else old(wCache) - {id}
      ensures id in old(wCache) ==> Flushed(old(wCache)[id], old(wCache[id].FileView()), err)
      ensures err ==> id in old(wCache) && old(wCache)[id].faults < old(wCache[id].faults)
    {
      DropReads(id);
      err := FlushInode(t, id);
      if !err {
        wCache := wCache - {id};
      }
    }

    /**
     * Truncate.  On success the view of the inode has the new length and its old bytes, zeros behind them, the server
     * has it, and neither cache holds any of its blocks.  On failure the view is as before, or resized; and some server
     * call has failed.
     */
    method Truncate(ghost t: nat, id: nat, length: nat) returns (err: bool)
      requires id in wCache ==> cached && wCache[id].Valid() && AllIdle(wCache[id].m) && t !in wCache[id].cfg.workers
      modifies `rCache, `faults, if id in wCache then {wCache[id], wCache[id].locks} else {}
      ensures rCache == old(rCache) || (id in old(rCache) && rCache == old(rCache)[id := map[]])
      ensures !err && cached && id in rCache ==> rCache[id] == map[]
      ensures !cached ==> rCache == old(rCache)
      ensures id in wCache ==> wCache[id].Valid() && AllIdle(wCache[id].m)
      ensures id in wCache && !err ==> wCache[id].server == wCache[id].FileView() && wCache[id].bufferMap == map[]
      ensures id in wCache ==>
        || (err && wCache[id].FileView() == old(wCache[id].FileView()))
        || (&& |wCache[id].FileView()| == length
            && forall p: nat :: p < length ==> At(wCache[id].FileView(), p) == At(old(wCache[id].FileView()), p))
      ensures err ==> if id in wCache then wCache[id].faults < old(wCache[id].faults) else faults < old(faults)
    {
      if cached {
        err := FlushInode(t, id);
        if err {
          return;
        }
        Release(id);
      }
      if id in wCache {
        var o := wCache[id].ResizeServer(length);
        err := !o.Done?;
      } else {
        err := CallFails();
      }
    }

    /** A server call on an inode without a write buffer. */
    method CallFails() returns (err: bool)
      modifies `faults
      ensures faults == old(faults) - (if err then 1 else 0)
    {
      err := *;
      if faults == 0 {
        err := false;
      }
      if err {
        faults := faults - 1;
      }
    }

    /** The caches' part of Close: the last handle closes the inode, any other flushes it. */
    method CloseOrFlush(ghost t: nat, id: nat, last: bool) returns (err: bool)
      requires id in wCache ==> wCache[id].Valid() && AllIdle(wCache[id].m) && t !in wCache[id].cfg.workers
      modifies `wCache, `rCache, if id in wCache then {wCache[id], wCache[id].locks} else {}
      ensures id in old(wCache) ==> Flushed(old(wCache)[id], old(wCache[id].FileView()), err)
      ensures err ==> id in old(wCache) && old(wCache)[id].faults < old(wCache[id].faults)
      ensures !err ==>
        && wCache == (if last then old(wCache) - {id} else old(wCache))
        && rCache == (if last then old(rCache) - {id} else old(rCache))
    {
      if last {
        err := CloseInode(t, id);
      } else {
        err := FlushInode(t, id);
      }
    }

    /** The inode that a handle refers to, if it is open and cached. */
    ghost predicate Cached(fd: nat)
      reads this, files, files.fileEntryVec
    {
      cached && fd < files.fileEntryVec.Length && files.fileEntryVec[fd].Open? && !files.fileEntryVec[fd].fe.directIO
    }

    /** fd is the last cached handle on its inode. */
    ghost predicate LastRef(fd: nat)
      requires fd < files.fileEntryVec.Length && files.fileEntryVec[fd].Open?
      reads this, files, files.fileEntryVec
    {
      forall j :: 0 <= j < files.fileEntryVec.Length && j != fd ==>
              Refers(files.fileEntryVec[j], files.fileEntryVec[fd].fe.id) == 0
    }

    /**
     * Close.  On success the handle is free; the server has the inode's whole view; and if it was the last cached
     * handle, neither cache keeps the inode.  On failure the handle stays open and the view is still intact.
     */
    method Close(ghost t: nat, fd: nat, ghost id: nat) returns (err: bool)
      requires files.Valid()
      requires (fd < files.fileEntryVec.Length && files.fileEntryVec[fd].Open? ==> id == files.fileEntryVec[fd].fe.id)
      requires id in wCache ==> wCache[id].Valid() && AllIdle(wCache[id].m) && t !in wCache[id].cfg.workers
      modifies `wCache, `rCache, files, files.fileEntryVec, if id in wCache then {wCache[id], wCache[id].locks} else {}
      ensures files.Valid()
      ensures !err ==> fd < files.fileEntryVec.Length && old(files.fileEntryVec[fd]).Open?
      ensures files.fileEntryVec[..] == if err then old(files.fileEntryVec[..])
              else old(files.fileEntryVec[..])[fd := Nil]
      ensures !old(Cached(fd)) ==> wCache == old(wCache) && rCache == old(rCache)
      ensures old(Cached(fd)) && id in old(wCache) ==>
        Flushed(old(wCache)[id], old(wCache[id].FileView()), err)
      ensures err ==>
        || !(fd < files.fileEntryVec.Length && old(files.fileEntryVec[fd]).Open?)
        || (old(Cached(fd)) && id in old(wCache) && old(wCache)[id].faults < old(wCache[id].faults))
      ensures old(Cached(fd)) && !err ==>
        && wCache == (if old(LastRef(fd)) then old(wCache) - {id} else old(wCache))
        && rCache == (if old(LastRef(fd)) then old(rCache) - {id} else old(rCache))
    {
      var fe;
      fe, err := files.GetFileEntry(fd);
      if err {
        return;
      }
      if cached && !fe.directIO {
        var last := files.IsLastRefer(fe);
        err := CloseOrFlush(t, fe.id, last);
        if err {
          return;
        }
      }
      err := files.CloseFile(fd);
    }
  }
}
