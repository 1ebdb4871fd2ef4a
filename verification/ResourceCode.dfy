/** The resource handlers as the source writes them, proved to make of the state exactly what the functions of
    Resources say; the assertions on the way hold, and every freed block is in use. */
module ResourceCode {
  import opened Bags
  import opened Timers
  import opened Processes
  import opened Resources
  import opened ResourceLaws
  import opened ResourceRuns

  class ResourceTable {
    /** resources_list, the three pools and their blocks, and what PCBs hold about resources. */
    var reg: Registry

    /** Resource_init and Descriptor_init, given the free stacks they make. */
    constructor (resources: seq<Block>, descs: seq<Block>, ptrs: seq<Block>)
      requires AllOf(resources, 0, MAX_NUM_PROCESSES)
      requires AllOf(descs, 0, MAX_NUM_PROCESSES) && AllOf(ptrs, 0, MAX_NUM_PROCESSES)
      ensures Boot(reg)
    {
      var zeros, noLists := seq(MAX_NUM_PROCESSES, _ => 0), seq(MAX_NUM_PROCESSES, _ => []);
      reg := Registry([], resources, zeros, zeros, noLists, seq(MAX_NUM_PROCESSES, _ => Desc(0, 0, 0, 0)), descs,
                      zeros, ptrs, noLists, zeros);
    }

    /** ResourceList_byId */
    method FindResource(id: int) returns (r: BlockRef)
      ensures r == ById(reg, reg.resList, id)
    {
      var l, aux := reg.resList, 0;
      while aux < |l|
        invariant 0 <= aux <= |l|
        invariant ById(reg, l, id) == ById(reg, l[aux..], id)
      {
        if reg.ids[l[aux]] == id {
          return Ref(l[aux]);
        }
        aux := aux + 1;
      }
      return Null;
    }

    /** DescriptorList_byFd */
    method FindDescriptor(p: Block, fd: int) returns (d: BlockRef)
      ensures d == ByFd(reg, reg.owned[p], fd)
    {
      var l, aux := reg.owned[p], 0;
      while aux < |l|
        invariant 0 <= aux <= |l|
        invariant ByFd(reg, l, fd) == ByFd(reg, l[aux..], fd)
      {
        if reg.descs[l[aux]].fd == fd {
          return Ref(l[aux]);
        }
        aux := aux + 1;
      }
      return Null;
    }

    // ---- disastrOS_open_resource.c

    method InternalOpenResource(p: Block, id: int, kind: int, mode: int) returns (ret: int)
      requires RegInv(reg) && CanCreate(reg, id, mode)
      modifies `reg
      ensures (reg, ret) == Open(old(reg), p, id, kind, mode)
    {
      assert reg.freeDescs == reg.freePtrs;
      hide RegInv;
      var res := FindResource(id);
      if CreateSet(mode) {
        if res.Ref? {
          return ERESOURCECREATE;
        }
        res := Ref(reg.freeRes[0]);
        reg := reg.(freeRes := reg.freeRes[1..]);
        reg := reg.(ids := reg.ids[res.p := id], types := reg.types[res.p := kind], ptrsOf := reg.ptrsOf[res.p := []]);
        reg := reg.(resList := reg.resList + [res.p]);
        assert reg == NewResource(old(reg), id, kind);
      }
      if res.Null? || reg.types[res.p] != kind {
        return ERESOURCEOPEN;
      }
      if ExclSet(mode) && reg.ptrsOf[res.p] != [] {
        return ERESOURCENOEXCL;
      }
      if reg.freeDescs == [] {
        return ERESOURCENOFD;
      }
      AttachDescriptor(p, res.p);
      return reg.lastFd[p] - 1;
    }

    /** The descriptor pair, and the links between the two. */
    method AttachDescriptor(p: Block, r: Block)
      requires reg.freeDescs != [] && reg.freePtrs != []
      modifies `reg
      ensures reg == Attach(old(reg), p, r)
    {
      var d := reg.freeDescs[0];
      reg := reg.(freeDescs := reg.freeDescs[1..]);
      reg := reg.(descs := reg.descs[d := reg.descs[d].(fd := reg.lastFd[p], resource := r, owner := p)]);
      reg := reg.(lastFd := reg.lastFd[p := reg.lastFd[p] + 1]);
      var x := reg.freePtrs[0];
      reg := reg.(freePtrs := reg.freePtrs[1..]);
      reg := reg.(pointee := reg.pointee[x := d]);
      reg := reg.(owned := reg.owned[p := reg.owned[p] + [d]]);
      reg := reg.(descs := reg.descs[d := reg.descs[d].(ptr := x)]);
      reg := reg.(ptrsOf := reg.ptrsOf[r := reg.ptrsOf[r] + [x]]);
    }

    // ---- disastrOS_close_resource.c, disastrOS_destroy_resource.c

    method InternalCloseResource(p: Block, fd: int) returns (ret: int)
      requires RegInv(reg)
      modifies `reg
      ensures (reg, ret) == Close(old(reg), p, fd)
    {
      hide RegInv;
      var d := FindDescriptor(p, fd);
      if d.Null? {
        return ERESOURCECLOSE;
      }
      ByFdFinds(reg, reg.owned[p], fd);
      InUse(reg, p, d.p);
      reg := reg.(owned := reg.owned[p := DetachFrom(reg.owned[p], d.p)]);
      var r, x := reg.descs[d.p].resource, reg.descs[d.p].ptr;
      reg := reg.(ptrsOf := reg.ptrsOf[r := DetachFrom(reg.ptrsOf[r], x)]);
      reg := reg.(freeDescs := GiveBlock(reg.freeDescs, d.p));
      reg := reg.(freePtrs := GiveBlock(reg.freePtrs, x));
      return 0;
    }

    method InternalDestroyResource(id: int) returns (ret: int)
      requires RegInv(reg)
      modifies `reg
      ensures (reg, ret) == Destroy(old(reg), id)
    {
      ResApart(reg);
      hide RegInv;
      var r := FindResource(id);
      ByIdFinds(reg, reg.resList, id);
      if r.Null? {
        return ERESOURCECLOSE;
      }
      if |reg.ptrsOf[r.p]| != 0 {
        return ERESOURCEINUSE;
      }
      reg := reg.(resList := DetachFrom(reg.resList, r.p));
      assert reg.ptrsOf[r.p] == [];
      reg := reg.(freeRes := GiveBlock(reg.freeRes, r.p));
      return 0;
    }

    // ---- the release loop of disastrOS_exit.c

    method ReleaseDescriptors(p: Block)
      requires RegInv(reg)
      modifies `reg
      ensures reg == ReleaseAll(old(reg), p) && RegInv(reg)
    {
      hide RegInv;
      while reg.owned[p] != []
        invariant RegInv(reg) && ReleaseAll(reg, p) == ReleaseAll(old(reg), p)
        decreases |reg.owned[p]|
      {
        ghost var s := reg;
        var d := reg.owned[p][0];
        InUse(reg, p, d);
        DetachKeeps(reg, p, d);
        reg := reg.(owned := reg.owned[p := DetachFrom(reg.owned[p], d)]);
        assert reg.owned[p] == s.owned[p][1..];
        var r, x := reg.descs[d].resource, reg.descs[d].ptr;
        reg := reg.(ptrsOf := reg.ptrsOf[r := DetachFrom(reg.ptrsOf[r], x)]);
        reg := reg.(freePtrs := GiveBlock(reg.freePtrs, x));
        reg := reg.(freeDescs := GiveBlock(reg.freeDescs, d));
        assert reg == Detach(s, p, d);
      }
    }

    /** PCB_alloc's part. */
    method ResetProcess(p: Block)
      modifies `reg
      ensures reg == NewProcess(old(reg), p)
    {
      reg := reg.(lastFd := reg.lastFd[p := 0]);
      reg := reg.(owned := reg.owned[p := []]);
    }

    // ---- whole runs

    method Execute(step: RegStep)
      requires RegInv(reg) && Permitted(reg, step)
      modifies `reg
      ensures RegInv(reg) && reg == After(old(reg), step)
    {
      hide RegInv;
      match step
      case OpenStep(p, id, kind, mode) =>
        OpenKeeps(reg, p, id, kind, mode);
        var _ := InternalOpenResource(p, id, kind, mode);
      case CloseStep(p, fd) => CloseKeeps(reg, p, fd); var _ := InternalCloseResource(p, fd);
      case DestroyStep(id) => DestroyKeeps(reg, id); var _ := InternalDestroyResource(id);
      case ReleaseStep(p) => ReleaseDescriptors(p);
      case NewProcessStep(p) => NewProcessKeeps(reg, p); ResetProcess(p);
    }
  }

  /** A descriptor of a process and its pointer are in use, and the pointer is in the list of the resource. */
  lemma InUse(s: Registry, p: Block, d: Block)
    requires RegInv(s) && d in s.owned[p]
    ensures d !in s.freeDescs && s.descs[d].ptr !in s.freePtrs && s.descs[d].ptr in s.ptrsOf[s.descs[d].resource]
  {
    PtrsApart(s, s.descs[d].resource);
  }
}
