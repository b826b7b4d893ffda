/**
 The inode fields of the change tracker updated in place, with the gap table as a
 fixed-size array.  Each method does to the fields what its namesake in ChangeTracking
 says about values, so the theorems there are about these methods.
 */
module NfsInode {
  import opened Wrappers
  import opened OutOfOrder
  import CT = ChangeTracking
  import DV = DataValidity

  class Inode {
    const capacity: nat
    var iversion: Version
    var gap: array?<Span>
    var cnt: nat
    var deferInval: bool
    var dataInvalid: bool
    ghost var base: Version
    ghost var changes: seq<CT.Change>

    ghost predicate Valid()
      reads this, gap
    {
      gap != null ==> gap.Length == capacity && cnt <= capacity
    }

    ghost function Value(): CT.State
      requires Valid()
      reads this, gap
    {
      CT.State(iversion, if gap == null then None else Some(gap[..cnt]),
               deferInval, dataInvalid, base, changes)
    }

    constructor (capacity: nat, v: Version)
      ensures Valid() && this.capacity == capacity && gap == null
      ensures Value() == CT.Fresh(v)
    {
      this.capacity := capacity;
      iversion, gap, cnt, deferInval, dataInvalid := v, null, 0, false, false;
      base, changes := v, [];
    }

    // The restarting loop: every range that chains is swallowed, its slot filled with the last one.
    method Swallow(start0: Version, end0: Version) returns (start: Version, end: Version, n: nat)
      requires gap != null && gap.Length == capacity && cnt <= capacity
      modifies gap
      ensures n <= cnt && Absorbed(gap[..n], Span(start, end)) == Absorb(old(gap[..cnt]), Span(start0, end0), 0)
    {
      ghost var before := gap[..cnt];
      var i := 0;
      start, end, n := start0, end0, cnt;
      while i < n
        invariant i <= n <= cnt
        invariant Absorb(gap[..n], Span(start, end), i) == Absorb(before, Span(start0, end0), 0)
        decreases n, n - i
      {
        ghost var now := gap[..n];
        if end == gap[i].start {
          end := gap[i].end;
        } else if start == gap[i].end {
          start := gap[i].start;
        } else {
          i := i + 1;
          continue;
        }
        n := n - 1;
        gap[i] := gap[n];
        assert gap[..n] == Without(now, i);
        i := 0;
      }
    }

    method Merge(start0: Version, end0: Version, allocOk: bool)
      requires Valid()
      modifies this, gap
      ensures Valid() && (gap != old(gap) ==> gap == null || fresh(gap))
      ensures Value() == CT.Merge(old(Value()), Span(start0, end0), allocOk, capacity)
    {
      hide Absorb;
      if deferInval { return; }
      if gap == null {
        if !allocOk {
          deferInval := true;
          return;
        }
        gap := new Span[capacity](_ => Span(0, 0));
        cnt := 0;
      }
      assert gap[..cnt] == CT.Table(old(Value()));
      var start, end, n := Swallow(start0, end0);
      if start != end {
        if n >= capacity {
          deferInval := true;
          gap := null;
          return;
        }
        gap[n] := Span(start, end);
        n := n + 1;
        assert gap[..n] == gap[..n-1] + [Span(start, end)];
      }
      cnt := n;
    }

    method Record(f: CT.Fattr, allocOk: bool)
      requires Valid()
      modifies this, gap
      ensures Valid() && (gap != old(gap) ==> gap == null || fresh(gap))
      ensures Value() == CT.Record(old(Value()), f, allocOk, capacity)
    {
      if f.change.Some? && f.preChange.Some? {
        Merge(f.change.value, f.preChange.value, allocOk);
        changes := changes + [CT.Change(Span(f.preChange.value, f.change.value), CT.SourceOf(f))];
      }
    }

    method SetCacheInvalid(data: bool, noPages: bool)
      requires Valid()
      modifies this
      ensures Valid() && (gap == null || gap == old(gap))
      ensures Value() == CT.SetCacheInvalid(old(Value()), data, noPages)
      ensures dataInvalid == (!noPages && (old(dataInvalid) || data)) && iversion == old(iversion)
      ensures if noPages || dataInvalid then gap == null && !deferInval else gap == old(gap) && deferInval == old(deferInval)
    {
      dataInvalid := (dataInvalid || data) && !noPages;
      if noPages || dataInvalid {
        deferInval, gap := false, null;
        base, changes := iversion, [];
      }
    }

    method WccUpdate(f: CT.Fattr, env: CT.Env)
      requires Valid()
      modifies this
      ensures Valid() && (gap == null || gap == old(gap))
      ensures Value() == CT.WccUpdate(old(Value()), f, env)
    {
      if f.change.Some? && f.preChange.Some? && f.preChange.value == iversion {
        changes := changes + [CT.Change(Span(iversion, f.change.value), CT.SourceOf(f))];
        iversion := f.change.value;
        if env.isDir {
          SetCacheInvalid(true, env.noPages);
        } else if env.xattrCapable {
          SetCacheInvalid(false, env.noPages);
        }
      }
    }

    method MoveTo(f: CT.Fattr, env: CT.Env)
      requires Valid() && f.change.Some?
      modifies this, gap
      ensures Valid() && (gap != old(gap) ==> gap == null || fresh(gap))
      ensures Value() == CT.MoveTo(old(Value()), f, env, capacity)
    {
      hide Insert;
      if env.delegated {
        changes := changes + [CT.Change(Span(iversion, f.change.value), CT.Delegated)];
      } else if env.writers {
        Record(f, env.alloc);
        Merge(iversion, f.change.value, env.allocAgain);
      }
      iversion := f.change.value;
    }

    method FoldLastGap(env: CT.Env)
      requires Valid()
      modifies this
      ensures Valid() && (gap == null || gap == old(gap))
      ensures Value() == CT.Fold(old(Value()), env)
    {
      if !env.writers && gap != null && cnt == 1 && gap[0].end == iversion {
        iversion := gap[0].start;
        gap := null;
      }
    }

    method UpdateInode(f: CT.Fattr, env: CT.Env)
      requires Valid()
      modifies this, gap
      ensures Valid() && (gap != old(gap) ==> gap == null || fresh(gap))
      ensures Value() == CT.Update(old(Value()), f, env, capacity)
      ensures DV.Updated(old(Value()), Value(), f, env)
    {
      hide CT.Update, DV.Updated;
      DV.UpdateIs(Value(), f, env, capacity);
      UpdateFields(f, env);
    }

    method UpdateFields(f: CT.Fattr, env: CT.Env)
      requires Valid()
      modifies this, gap
      ensures Valid() && (gap != old(gap) ==> gap == null || fresh(gap))
      ensures Value() == CT.Update(old(Value()), f, env, capacity)
    {
      WccUpdate(f, env);
      var invalid := env.sizeChanged && !env.writers;
      if f.change.Some? {
        FoldLastGap(env);
        if iversion != f.change.value {
          invalid := invalid || !(env.writers || env.delegated);
          MoveTo(f, env);
        }
      }
      SetCacheInvalid(invalid, env.noPages);
    }

    method RefreshLocked(f: CT.Fattr, env: CT.Env, newer: bool, recheck: bool)
      requires Valid()
      modifies this, gap
      ensures Valid() && (gap != old(gap) ==> gap == null || fresh(gap))
      ensures Value() == CT.Refresh(old(Value()), f, env, newer, recheck, capacity)
    {
      if newer {
        UpdateInode(f, env);
      } else {
        Record(f, env.alloc);
        if recheck { SetCacheInvalid(false, env.noPages); }
      }
    }

    method PostOpUpdateLocked(f: CT.Fattr, env: CT.Env, newer: bool, recheck: bool)
      requires Valid()
      modifies this, gap
      ensures Valid() && (gap != old(gap) ==> gap == null || fresh(gap))
      ensures Value() == CT.PostOp(old(Value()), f, env, newer, recheck, capacity)
    {
      SetCacheInvalid(env.isDir, env.noPages);
      if f.present { RefreshLocked(f, env, newer, recheck); }
    }

    method ForceWccLocked(f: CT.Fattr, env: CT.Env, cmp: int, newer: bool, recheck: bool)
      requires Valid()
      modifies this, gap
      ensures Valid() && (gap != old(gap) ==> gap == null || fresh(gap))
      ensures Value() == CT.ForceWcc(old(Value()), f, env, cmp, newer, recheck, capacity)
    {
      if cmp < 0 { return; }
      var g := f;
      if !f.present || cmp == 0 {
        Record(f, env.alloc);
        g := f.(preChange := None);
      } else if f.change.Some? && f.preChange.None? {
        g := f.(preChange := Some(iversion), madeUp := true);
      }
      PostOpUpdateLocked(g, env, newer, recheck);
    }
  }
}
