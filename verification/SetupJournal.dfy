/** The journal of one setup attempt, and what rolling it back restores. */
module SetupJournal {
  import opened Wrappers

  type Path = seq<string>
  type Bytes = string

  datatype Node = Dir | File(data: Bytes)

  type Tree = map<Path, Node>

  function Parent(p: Path): Path { if p == [] then [] else p[..|p| - 1] }

  /** The root is a directory, and so is the parent of everything else. */
  ghost predicate IsTree(t: Tree) {
    && [] in t && t[[]] == Dir
    && forall p | p in t && p != [] :: Parent(p) in t && t[Parent(p)] == Dir
  }

  // ---- the file system ------------------------------------------------------

  predicate IsDir(t: Tree, p: Path) { p in t && t[p] == Dir }

  predicate Writable(t: Tree, p: Path) { p != [] && IsDir(t, Parent(p)) && !IsDir(t, p) }

  /** `path.write_bytes`; nothing happens when the parent is missing. */
  function WriteFile(t: Tree, p: Path, data: Bytes): Tree {
    if Writable(t, p) then t[p := File(data)] else t
  }

  /** `rmtree` or `unlink` */
  function Remove(t: Tree, p: Path): Tree { map q | q in t && !(p <= q) :: t[q] }

  /** `rmdir`: only an empty directory goes. */
  function RemoveEmpty(t: Tree, p: Path): Tree {
    if IsDir(t, p) && forall q | q in t :: !(p < q) then t - {p} else t
  }

  /** The missing directories on the way to `p`, topmost first. */
  function Missing(t: Tree, p: Path): (ms: seq<Path>)
    ensures forall m | m in ms :: m != [] && m !in t && m <= p
    decreases |p|
  {
    if p == [] || p in t then [] else Missing(t, Parent(p)) + [p]
  }

  /** The nearest existing path at or above `p`. */
  function Anchor(t: Tree, p: Path): Path
    decreases |p|
  {
    if p == [] || p in t then p else Anchor(t, Parent(p))
  }

  /** `path.mkdir(parents=True, exist_ok=True)` succeeds. */
  predicate CanMake(t: Tree, p: Path) { IsDir(t, Anchor(t, p)) }

  function MakeDirs(t: Tree, p: Path): Tree {
    if CanMake(t, p) then t + (map m | m in Missing(t, p) :: Dir) else t
  }

  /** `path.with_name(path.name + ".tmp")` */
  function Tmp(p: Path): Path
    requires p != []
  {
    Parent(p) + [p[|p| - 1] + ".tmp"]
  }

  /** Write the temporary sibling, then rename it over `p`. */
  function WriteAside(t: Tree, p: Path, data: Bytes): Tree
    requires p != []
  {
    if !Writable(t, Tmp(p)) then t
    else if IsDir(t, p) then t[Tmp(p) := File(data)]
    else (t - {Tmp(p)})[p := File(data)]
  }

  // ---- the journal as a value -------------------------------------------------

  datatype Log = Log(created: seq<Path>, dirs: seq<Path>, modified: map<Path, Bytes>)

  const EMPTY := Log([], [], map[])

  /** `before_write`; reading the old bytes of a directory fails. */
  function Noted(t: Tree, log: Log, p: Path): Option<Log> {
    if p in t then
      if p in log.modified || p in log.created then Some(log)
      else if t[p].File? then Some(log.(modified := log.modified[p := t[p].data]))
      else None
    else if p in log.created then Some(log)
    else Some(log.(created := log.created + [p]))
  }

  datatype Op =
    | Mkdir(path: Path)
    | WriteText(path: Path, data: Bytes)
    | WriteJson(path: Path, data: Bytes)
    | WriteInPlace(path: Path, data: Bytes)
    | CopyTree(path: Path, sub: Tree)

  datatype State = State(tree: Tree, log: Log)

  function Planted(t: Tree, p: Path, sub: Tree): Tree {
    if p in t || !IsDir(t, Parent(p)) then t
    else t + (map r | r in (set q | q in sub :: p + q) && r[|p|..] in sub :: sub[r[|p|..]])
  }

  function MkdirStep(s: State, p: Path): State {
    if CanMake(s.tree, p)
    then State(MakeDirs(s.tree, p), s.log.(dirs := s.log.dirs + Missing(s.tree, p)))
    else s
  }

  /** What happens to the tree once the target is journaled. */
  function Written(t: Tree, op: Op): Tree
    requires op.path != []
  {
    match op
    case WriteText(p, data) => WriteAside(t, p, data)
    case WriteJson(p, data) => if CanMake(t, Parent(p)) then WriteAside(MakeDirs(t, Parent(p)), p, data) else t
    case WriteInPlace(p, data) => WriteFile(t, p, data)
    case CopyTree(p, sub) => Planted(t, p, sub)
    case Mkdir(_) => t
  }

  function WriteStep(s: State, op: Op): State
    requires op.path != []
  {
    match Noted(s.tree, s.log, op.path)
    case None => s
    case Some(log) => State(Written(s.tree, op), log)
  }

  /** One journaled step of setup; a step that raises leaves what it did so far. */
  function Step(s: State, op: Op): State
    requires op.path != []
  {
    if op.Mkdir? then MkdirStep(s, op.path)
    else if op.CopyTree? then
      if CanMake(s.tree, Parent(op.path)) then WriteStep(MkdirStep(s, Parent(op.path)), op) else s
    else WriteStep(s, op)
  }

  // ---- what a step writes ---------------------------------------------------------

  /** A journaled text or JSON write puts exactly this file in place, and the temporary
    * sibling is gone. */
  lemma WriteTextWrites(s: State, p: Path, data: Bytes)
    requires p != [] && Noted(s.tree, s.log, p).Some? && IsDir(s.tree, Parent(p)) && !IsDir(s.tree, Tmp(p)) && !IsDir(s.tree, p)
    ensures forall op | op == WriteText(p, data) || op == WriteJson(p, data) ::
              var t := Step(s, op).tree;
              && p in t && t[p] == File(data) && Tmp(p) !in t
              && (forall q | q != p && q != Tmp(p) :: (q in t <==> q in s.tree) && (q in t ==> t[q] == s.tree[q]))
  {
    TmpIsBeside(p);
    assert Anchor(s.tree, Parent(p)) == Parent(p) && Missing(s.tree, Parent(p)) == [];
    assert MakeDirs(s.tree, Parent(p)) == s.tree;
  }

  /** A write in place writes this file and nothing else. */
  lemma WriteInPlaceWrites(s: State, p: Path, data: Bytes)
    requires p != [] && Noted(s.tree, s.log, p).Some? && IsDir(s.tree, Parent(p)) && !IsDir(s.tree, p)
    ensures Step(s, WriteInPlace(p, data)).tree == s.tree[p := File(data)]
  {
  }

  /** After `mkdir` the path is a directory, what was there is as it was, and only
    * directories on the way are new. */
  lemma MkdirMakes(s: State, p: Path)
    requires IsTree(s.tree) && p != [] && CanMake(s.tree, p)
    ensures var t := Step(s, Mkdir(p)).tree;
            && IsDir(t, p)
            && (forall q | q in s.tree :: q in t && t[q] == s.tree[q])
            && (forall q | q in t && q !in s.tree :: q <= p && t[q] == Dir)
  {
    MissingReaches(s.tree, p);
  }

  lemma MissingReaches(t: Tree, p: Path)
    requires IsTree(t)
    ensures p in t || p in Missing(t, p)
    ensures p in t ==> Anchor(t, p) == p
  {
  }

  /** A copied tree is there, node by node, and nothing else changes but the missing
    * directories above it. */
  lemma CopyTreePlants(s: State, p: Path, sub: Tree)
    requires IsTree(s.tree) && p != [] && p !in s.tree && p !in s.log.created && p !in s.log.modified && IsDir(s.tree, Parent(p))
    ensures var t := Step(s, CopyTree(p, sub)).tree;
            && (forall q | q in sub :: p + q in t && t[p + q] == sub[q])
            && (forall q | q in s.tree && !(p <= q) :: q in t && t[q] == s.tree[q])
            && (forall q | q in t && !(p <= q) :: q in s.tree)
  {
    MissingReaches(s.tree, Parent(p));
    assert Missing(s.tree, Parent(p)) == [];
    assert MakeDirs(s.tree, Parent(p)) == s.tree;
    var s' := MkdirStep(s, Parent(p));
    assert s'.tree == s.tree && s'.log == s.log;
    forall q | q in sub ensures (p + q)[|p|..] == q && p <= p + q {
    }
  }

  // ---- rollback as a value ------------------------------------------------------

  function RestoreFiles(t: Tree, modified: map<Path, Bytes>): Tree {
    map q | q in t.Keys + modified.Keys && (q in t || Writable(t, q)) ::
      if q in modified && Writable(t, q) then File(modified[q]) else t[q]
  }

  function RemoveCreated(t: Tree, created: seq<Path>): Tree
    decreases |created|
  {
    if created == [] then t
    else RemoveCreated(Remove(t, created[|created| - 1]), created[..|created| - 1])
  }

  function RemoveDirs(t: Tree, dirs: seq<Path>): Tree
    decreases |dirs|
  {
    if dirs == [] then t
    else RemoveDirs(RemoveEmpty(t, dirs[|dirs| - 1]), dirs[..|dirs| - 1])
  }

  function Undone(s: State): Tree {
    RemoveDirs(RemoveCreated(RestoreFiles(s.tree, s.log.modified), s.log.created), s.log.dirs)
  }

  // ---- trees ---------------------------------------------------------------------

  lemma {:induction false} Ancestors(t: Tree, p: Path, q: Path)
    requires IsTree(t) && p in t && q <= p
    ensures q in t && (q != p ==> t[q] == Dir)
    decreases |p|
  {
    if q != p {
      assert q <= Parent(p) && Parent(p) in t && t[Parent(p)] == Dir;
      Ancestors(t, Parent(p), q);
    }
  }

  predicate Covered(created: seq<Path>, p: Path) { exists c :: c in created && c <= p }

  lemma {:induction false} RemoveCreatedSpec(t: Tree, created: seq<Path>)
    ensures RemoveCreated(t, created) == map q | q in t && !Covered(created, q) :: t[q]
    decreases |created|
  {
    if created != [] {
      var n := |created| - 1;
      RemoveCreatedSpec(Remove(t, created[n]), created[..n]);
      assert created == created[..n] + [created[n]];
      forall q ensures Covered(created, q) <==> Covered(created[..n], q) || created[n] <= q {
        if created[n] <= q {
          assert created[n] in created;
        }
        if Covered(created[..n], q) {
          var c :| c in created[..n] && c <= q;
          assert c in created;
        }
        if Covered(created, q) && !(created[n] <= q) {
          var c :| c in created && c <= q;
          assert c in created[..n];
        }
      }
    }
  }

  /** No directory is recorded before one that lies at or above it. */
  ghost predicate Ordered(dirs: seq<Path>) { forall i, j | 0 <= i < j < |dirs| :: !(dirs[j] <= dirs[i]) }

  /** The directory created last is empty by the time it is removed. */
  lemma LastIsEmpty(t0: Tree, t: Tree, dirs: seq<Path>, q: Path)
    requires IsTree(t0) && dirs != [] && Ordered(dirs) && forall d | d in dirs :: d !in t0
    requires forall p | p in t && p !in t0 :: p in dirs
    requires q in t
    ensures !(dirs[|dirs| - 1] < q)
  {
    var d := dirs[|dirs| - 1];
    if q in t0 {
      if d <= q {
        Ancestors(t0, q, d);
      }
    } else {
      var i :| 0 <= i < |dirs| && dirs[i] == q;
    }
  }

  lemma {:induction false} RemoveDirsRestores(t0: Tree, t: Tree, dirs: seq<Path>)
    requires IsTree(t0) && Ordered(dirs) && forall d | d in dirs :: d !in t0
    requires forall p | p in t0 :: p in t && t[p] == t0[p]
    requires forall p | p in t && p !in t0 :: p in dirs && t[p] == Dir
    ensures RemoveDirs(t, dirs) == t0
    decreases |dirs|
  {
    if dirs == [] {
      assert t == t0;
    } else {
      var n := |dirs| - 1;
      var d := dirs[n];
      forall q | q in t ensures !(d < q) {
        LastIsEmpty(t0, t, dirs, q);
      }
      assert d in dirs;
      var less := RemoveEmpty(t, d);
      assert less == t - {d};
      forall p | p in less && p !in t0 ensures p in dirs[..n] {
        var i :| 0 <= i < |dirs| && dirs[i] == p;
        assert dirs[..n][i] == p;
      }
      RemoveDirsRestores(t0, less, dirs[..n]);
    }
  }

  // ---- what the journal keeps ------------------------------------------------------

  /** The log accounts for what has become of path `q` since the start. */
  ghost predicate PathOk(t0: Tree, s: State, q: Path) {
    if q in t0 then
      && q !in s.log.created && q !in s.log.dirs
      && (if q in s.log.modified then t0[q] == File(s.log.modified[q]) && !IsDir(s.tree, q)
          else q in s.tree && s.tree[q] == t0[q])
    else
      && (q in s.log.dirs ==> IsDir(s.tree, q))
      && (q in s.log.modified ==> Covered(s.log.created, q))
      && (q in s.tree ==> q in s.log.dirs || Covered(s.log.created, q))
  }

  ghost predicate Accounts(t0: Tree, s: State) {
    && IsTree(t0) && IsTree(s.tree) && Ordered(s.log.dirs)
    && forall q :: PathOk(t0, s, q)
  }

  /** A file that is recorded as modified and is gone: an earlier write took it for
    * its temporary sibling. */
  predicate Gone(s: State, p: Path) { p in s.log.modified && p !in s.tree && !Covered(s.log.created, p) }

  lemma NotCovered(t0: Tree, s: State, p: Path)
    requires Accounts(t0, s) && p in t0
    ensures !Covered(s.log.created, p)
  {
    forall c | c in s.log.created ensures !(c <= p) {
      assert PathOk(t0, s, c);
      if c <= p {
        Ancestors(t0, p, c);
      }
    }
  }

  lemma ModifiedIsWritable(t0: Tree, s: State, p: Path)
    requires Accounts(t0, s) && p in s.log.modified && p in t0
    ensures Writable(s.tree, p)
  {
    assert PathOk(t0, s, p) && PathOk(t0, s, Parent(p));
    assert Parent(p) in t0 && t0[Parent(p)] == Dir;
  }

  lemma RestoredPath(t0: Tree, s: State, p: Path)
    requires Accounts(t0, s)
    ensures var t := RestoreFiles(s.tree, s.log.modified);
            && (p in t0 ==> p in t && t[p] == t0[p] && !Covered(s.log.created, p))
            && (p in t && p !in t0 && !Covered(s.log.created, p) ==> p in s.log.dirs && t[p] == Dir)
  {
    assert PathOk(t0, s, p);
    if p in t0 {
      NotCovered(t0, s, p);
      if p in s.log.modified {
        ModifiedIsWritable(t0, s, p);
      }
    }
  }

  /** Rolling back a log that accounts for every difference restores the start. */
  lemma UndoneIsStart(t0: Tree, s: State)
    requires Accounts(t0, s)
    ensures Undone(s) == t0
  {
    var restored := RestoreFiles(s.tree, s.log.modified);
    var t := RemoveCreated(restored, s.log.created);
    RemoveCreatedSpec(restored, s.log.created);
    forall p
      ensures p in t0 ==> p in t && t[p] == t0[p]
      ensures p in t && p !in t0 ==> p in s.log.dirs && t[p] == Dir
    {
      RestoredPath(t0, s, p);
    }
    forall d | d in s.log.dirs ensures d !in t0 {
      assert PathOk(t0, s, d);
    }
    RemoveDirsRestores(t0, t, s.log.dirs);
  }

  // ---- the steps ----------------------------------------------------------------------

  lemma {:induction false} MissingOrdered(t: Tree, p: Path)
    ensures Ordered(Missing(t, p)) && forall m | m in Missing(t, p) :: |m| <= |p|
    decreases |p|
  {
    if p != [] && p !in t {
      MissingOrdered(t, Parent(p));
      var above := Missing(t, Parent(p));
      forall i | 0 <= i < |above| ensures !(p <= above[i]) {
        assert above[i] in above;
      }
    }
  }

  lemma {:induction false} MissingIsAll(t: Tree, p: Path, m: Path)
    requires IsTree(t) && m <= p && m !in t
    ensures m in Missing(t, p)
    decreases |p|
  {
    if p in t {
      Ancestors(t, p, m);
    } else if m != p {
      assert m <= Parent(p);
      MissingIsAll(t, Parent(p), m);
    }
  }

  lemma {:induction false} AnchorAbove(t: Tree, p: Path)
    requires IsTree(t)
    ensures Anchor(t, p) in t && Anchor(t, p) <= p
    ensures forall m | m in Missing(t, p) :: Anchor(t, p) == Parent(m) || Parent(m) in Missing(t, p)
    decreases |p|
  {
    if p != [] && p !in t {
      AnchorAbove(t, Parent(p));
      if Missing(t, Parent(p)) == [] {
        assert Anchor(t, p) == Parent(p);
      } else {
        assert Parent(p) in Missing(t, Parent(p));
      }
    }
  }

  lemma MadeIsTree(t: Tree, p: Path)
    requires IsTree(t) && CanMake(t, p)
    ensures IsTree(MakeDirs(t, p)) && IsDir(MakeDirs(t, p), p)
  {
    AnchorAbove(t, p);
    var made := MakeDirs(t, p);
    if p in t {
      assert Anchor(t, p) == p;
    } else {
      assert p in Missing(t, p);
    }
  }

  lemma OrderedAppend(t: Tree, a: seq<Path>, b: seq<Path>)
    requires IsTree(t) && Ordered(a) && Ordered(b)
    requires (forall d | d in a :: d in t) && (forall d | d in b :: d !in t)
    ensures Ordered(a + b)
  {
    var ab := a + b;
    forall i, j | 0 <= i < j < |ab| ensures !(ab[j] <= ab[i]) {
      if i < |a| <= j {
        assert ab[i] in a && ab[j] in b;
        if ab[j] <= ab[i] {
          Ancestors(t, ab[i], ab[j]);
          assert false;
        }
      }
    }
  }

  lemma MkdirAccounts(t0: Tree, s: State, p: Path)
    requires Accounts(t0, s) && (CanMake(s.tree, p) ==> forall m | m in Missing(s.tree, p) :: !Gone(s, m))
    ensures Accounts(t0, MkdirStep(s, p))
  {
    if CanMake(s.tree, p) {
      var missing, after := Missing(s.tree, p), MkdirStep(s, p);
      MadeIsTree(s.tree, p);
      MissingOrdered(s.tree, p);
      forall d | d in s.log.dirs ensures d in s.tree {
        assert PathOk(t0, s, d);
      }
      OrderedAppend(s.tree, s.log.dirs, missing);
      forall q ensures PathOk(t0, after, q) {
        assert PathOk(t0, s, q);
        assert q in after.log.dirs <==> q in s.log.dirs || q in missing;
        if q in t0 {
          NotCovered(t0, s, q);
        }
      }
    }
  }

  predicate Journaled(log: Log, p: Path) { p in log.modified || Covered(log.created, p) }

  lemma CoveredAfter(created: seq<Path>, p: Path)
    ensures forall q :: Covered(created + [p], q) <==> Covered(created, q) || p <= q
  {
    forall q ensures Covered(created + [p], q) <==> Covered(created, q) || p <= q {
      if Covered(created, q) {
        var c :| c in created && c <= q;
        assert c in created + [p];
      }
      assert p in created + [p];
    }
  }

  lemma BeforeWriteAccounts(t0: Tree, s: State, p: Path)
    requires Accounts(t0, s) && Noted(s.tree, s.log, p).Some? && !Gone(s, p)
    ensures var log := Noted(s.tree, s.log, p).value;
            Accounts(t0, State(s.tree, log)) && Journaled(log, p)
  {
    var log := Noted(s.tree, s.log, p).value;
    CoveredAfter(s.log.created, p);
    assert PathOk(t0, s, p);
    if p in t0 {
      NotCovered(t0, s, p);
    }
    forall q ensures PathOk(t0, State(s.tree, log), q) {
      assert PathOk(t0, s, q);
    }
  }

  lemma WriteInPlaceAccounts(t0: Tree, s: State, p: Path, data: Bytes)
    requires Accounts(t0, s) && Journaled(s.log, p)
    ensures Accounts(t0, State(WriteFile(s.tree, p, data), s.log))
  {
    if p in t0 {
      NotCovered(t0, s, p);
    }
    forall q ensures PathOk(t0, State(WriteFile(s.tree, p, data), s.log), q) {
      assert PathOk(t0, s, q);
    }
  }

  lemma TmpIsBeside(p: Path)
    requires p != []
    ensures Tmp(p) != p && Tmp(p) != [] && Parent(Tmp(p)) == Parent(p) && !(p <= Tmp(p))
  {
    assert Tmp(p)[|p| - 1] == p[|p| - 1] + ".tmp";
  }

  /** What `write_text` does to the temporary sibling can be undone: a file there is
    * journaled, and none is left behind unjournaled when `p` is a directory. */
  predicate TmpSafe(s: State, p: Path, data: Bytes)
    requires p != []
  {
    Writable(s.tree, Tmp(p)) ==>
      if IsDir(s.tree, p) then Journaled(s.log, Tmp(p)) || (Tmp(p) in s.tree && s.tree[Tmp(p)] == File(data))
      else Tmp(p) in s.tree ==> Journaled(s.log, Tmp(p))
  }

  lemma DropTmpAccounts(t0: Tree, s: State, p: Path)
    requires Accounts(t0, s) && Journaled(s.log, p) && !IsDir(s.tree, p)
    ensures Accounts(t0, State(s.tree - {p}, s.log))
  {
    forall q ensures PathOk(t0, State(s.tree - {p}, s.log), q) {
      assert PathOk(t0, s, q);
      if p in t0 {
        NotCovered(t0, s, p);
      }
    }
  }

  lemma WriteAsideAccounts(t0: Tree, s: State, p: Path, data: Bytes)
    requires p != [] && Accounts(t0, s) && Journaled(s.log, p) && TmpSafe(s, p, data)
    ensures Accounts(t0, State(WriteAside(s.tree, p, data), s.log))
  {
    TmpIsBeside(p);
    if Writable(s.tree, Tmp(p)) {
      if IsDir(s.tree, p) {
        if Journaled(s.log, Tmp(p)) {
          WriteInPlaceAccounts(t0, s, Tmp(p), data);
        } else {
          assert s.tree[Tmp(p) := File(data)] == s.tree;
        }
      } else {
        var less := s.tree - {Tmp(p)};
        if Tmp(p) in s.tree {
          DropTmpAccounts(t0, s, Tmp(p));
        } else {
          assert less == s.tree;
        }
        assert Writable(less, p);
        WriteInPlaceAccounts(t0, State(less, s.log), p, data);
      }
    }
  }

  lemma MakeCoveredAccounts(t0: Tree, s: State, p: Path)
    requires Accounts(t0, s) && CanMake(s.tree, p)
    requires forall m | m in Missing(s.tree, p) :: Covered(s.log.created, m)
    ensures Accounts(t0, State(MakeDirs(s.tree, p), s.log))
  {
    MadeIsTree(s.tree, p);
    forall q ensures PathOk(t0, State(MakeDirs(s.tree, p), s.log), q) {
      assert PathOk(t0, s, q);
      if q in t0 {
        NotCovered(t0, s, q);
      }
    }
  }

  lemma PlantedAt(t: Tree, p: Path, sub: Tree, r: Path)
    requires p !in t && IsDir(t, Parent(p)) && p != []
    ensures r in Planted(t, p, sub) <==> r in t || (p <= r && r[|p|..] in sub)
    ensures r in Planted(t, p, sub) ==> Planted(t, p, sub)[r] == if p <= r && r[|p|..] in sub then sub[r[|p|..]] else t[r]
  {
    if p <= r && r[|p|..] in sub {
      assert r == p + r[|p|..];
    }
  }

  lemma PlantedIsTree(t: Tree, p: Path, sub: Tree)
    requires IsTree(t) && IsTree(sub) && p != []
    ensures IsTree(Planted(t, p, sub))
  {
    var planted := Planted(t, p, sub);
    if p !in t && IsDir(t, Parent(p)) {
      PlantedAt(t, p, sub, []);
      forall r | r in planted && r != [] ensures IsDir(planted, Parent(r)) {
        PlantedAt(t, p, sub, r);
        PlantedAt(t, p, sub, Parent(r));
        if r in t && p <= Parent(r) {
          Ancestors(t, r, p);
        }
        if r !in t && r != p {
          assert p <= Parent(r) && Parent(r)[|p|..] == Parent(r[|p|..]);
        }
      }
    }
  }

  lemma PlantAccounts(t0: Tree, s: State, p: Path, sub: Tree)
    requires p != [] && Accounts(t0, s) && IsTree(sub) && Covered(s.log.created, p)
    ensures Accounts(t0, State(Planted(s.tree, p, sub), s.log))
  {
    if p !in s.tree && IsDir(s.tree, Parent(p)) {
      PlantedIsTree(s.tree, p, sub);
      forall r ensures PathOk(t0, State(Planted(s.tree, p, sub), s.log), r) {
        PlantedAt(s.tree, p, sub, r);
        assert PathOk(t0, s, r);
        if r in t0 {
          NotCovered(t0, s, r);
        }
        if p <= r {
          CoveredBelow(s.log.created, p, r);
          if r in s.tree {
            Ancestors(s.tree, r, p);
          }
        }
      }
    }
  }

  lemma CoveredBelow(created: seq<Path>, p: Path, q: Path)
    requires Covered(created, p) && p <= q
    ensures Covered(created, q)
  {
    var c :| c in created && c <= p;
    assert c <= q;
  }

  // ---- whole setup attempts -------------------------------------------------------------

  /** Every directory that is about to be made under this path is covered. */
  predicate DirsCovered(s: State, p: Path) {
    CanMake(s.tree, p) ==> forall m | m in Missing(s.tree, p) :: Covered(s.log.created, m)
  }

  /** No directory is about to be made where a recorded file is gone. */
  predicate DirsFree(s: State, p: Path) { CanMake(s.tree, p) ==> forall m | m in Missing(s.tree, p) :: !Gone(s, m) }

  /** A step that rollback can undo: it records no file that is gone as created, makes
    * no directory in its place, treats the temporary sibling safely, and makes no
    * unjournaled directory. */
  predicate Safe(s: State, op: Op)
    requires op.path != []
  {
    match op
    case Mkdir(p) => DirsFree(s, p)
    case CopyTree(p, _) => CanMake(s.tree, Parent(p)) ==> DirsFree(s, Parent(p)) && !Gone(s, p)
    case WriteInPlace(p, _) => !Gone(s, p)
    case WriteText(p, data) => Noted(s.tree, s.log, p).Some? ==> !Gone(s, p) && TmpSafe(s, p, data)
    case WriteJson(p, data) =>
      Noted(s.tree, s.log, p).Some? ==>
        !Gone(s, p) && DirsCovered(s, Parent(p)) && (CanMake(s.tree, Parent(p)) ==> TmpSafe(s, p, data))
  }

  /** A directory copied into place is itself a tree. */
  ghost predicate SoundOp(op: Op) { op.path != [] && (op.CopyTree? ==> IsTree(op.sub)) }

  lemma NoTmpBelow(t: Tree, p: Path)
    requires p != [] && IsTree(t) && Parent(p) !in t
    ensures Tmp(p) !in t && p !in t
  {
    TmpIsBeside(p);
  }

  lemma MakeAsideAccounts(t0: Tree, s: State, p: Path, data: Bytes)
    requires p != [] && Accounts(t0, s) && Journaled(s.log, p)
    requires DirsCovered(s, Parent(p)) && CanMake(s.tree, Parent(p)) && TmpSafe(s, p, data)
    ensures Accounts(t0, State(WriteAside(MakeDirs(s.tree, Parent(p)), p, data), s.log))
  {
    var made := State(MakeDirs(s.tree, Parent(p)), s.log);
    MakeCoveredAccounts(t0, s, Parent(p));
    MissingOrdered(s.tree, Parent(p));
    assert |Tmp(p)| == |p| && forall m | m in Missing(s.tree, Parent(p)) :: |m| < |p|;
    assert p !in Missing(s.tree, Parent(p)) && Tmp(p) !in Missing(s.tree, Parent(p));
    if Parent(p) in s.tree {
      assert made == s;
    } else {
      NoTmpBelow(s.tree, p);
    }
    WriteAsideAccounts(t0, made, p, data);
  }

  lemma WriteTextAccounts(t0: Tree, s: State, op: Op)
    requires op.path != [] && (op.WriteText? || op.WriteJson?) && Accounts(t0, s) && Safe(s, op)
    ensures Accounts(t0, WriteStep(s, op))
  {
    var p := op.path;
    if Noted(s.tree, s.log, p).Some? {
      var log := Noted(s.tree, s.log, p).value;
      var j := State(s.tree, log);
      BeforeWriteAccounts(t0, s, p);
      CoveredMore(s, p, log);
      TmpIsBeside(p);
      if op.WriteText? {
        WriteAsideAccounts(t0, j, p, op.data);
      } else if CanMake(s.tree, Parent(p)) {
        MakeAsideAccounts(t0, j, p, op.data);
      }
    }
  }

  lemma CopyAccounts(t0: Tree, s: State, op: Op)
    requires SoundOp(op) && op.CopyTree? && Accounts(t0, s) && Safe(s, op) && CanMake(s.tree, Parent(op.path))
    ensures Accounts(t0, WriteStep(MkdirStep(s, Parent(op.path)), op))
  {
    var p := op.path;
    var made := MkdirStep(s, Parent(p));
    MkdirAccounts(t0, s, Parent(p));
    MissingOrdered(s.tree, Parent(p));
    if Noted(made.tree, made.log, p).Some? {
      var log := Noted(made.tree, made.log, p).value;
      BeforeWriteAccounts(t0, made, p);
      CoveredAfter(made.log.created, p);
      if p !in made.tree {
        assert p in log.created;
        PlantAccounts(t0, State(made.tree, log), p, op.sub);
      }
    }
  }

  lemma CoveredMore(s: State, p: Path, log: Log)
    requires Noted(s.tree, s.log, p) == Some(log)
    ensures forall q | Covered(s.log.created, q) :: Covered(log.created, q)
    ensures forall q | Covered(log.created, q) :: Covered(s.log.created, q) || p <= q
  {
    assert forall c | c in s.log.created :: c in log.created;
    assert forall c | c in log.created :: c in s.log.created || c == p;
  }

  lemma StepAccounts(t0: Tree, s: State, op: Op)
    requires SoundOp(op) && Accounts(t0, s) && Safe(s, op)
    ensures Accounts(t0, Step(s, op))
  {
    match op
    case Mkdir(p) => MkdirAccounts(t0, s, p);
    case CopyTree(p, sub) =>
      if CanMake(s.tree, Parent(p)) {
        CopyAccounts(t0, s, op);
      }
    case WriteInPlace(p, data) =>
      if Noted(s.tree, s.log, p).Some? {
        BeforeWriteAccounts(t0, s, p);
        WriteInPlaceAccounts(t0, State(s.tree, Noted(s.tree, s.log, p).value), p, data);
      }
    case WriteText(_, _) => WriteTextAccounts(t0, s, op);
    case WriteJson(_, _) => WriteTextAccounts(t0, s, op);
  }

  ghost predicate SoundOps(ops: seq<Op>) { forall i | 0 <= i < |ops| :: SoundOp(ops[i]) }

  ghost function Run(s: State, ops: seq<Op>): State
    requires SoundOps(ops)
    decreases |ops|
  {
    if ops == [] then s else Run(Step(s, ops[0]), ops[1..])
  }

  ghost predicate AllSafe(s: State, ops: seq<Op>)
    requires SoundOps(ops)
    decreases |ops|
  {
    ops == [] || (Safe(s, ops[0]) && AllSafe(Step(s, ops[0]), ops[1..]))
  }

  lemma StartAccounts(t0: Tree)
    requires IsTree(t0)
    ensures Accounts(t0, State(t0, EMPTY))
  {
    forall q ensures PathOk(t0, State(t0, EMPTY), q) {
    }
  }

  lemma {:induction false} RunAccounts(t0: Tree, s: State, ops: seq<Op>)
    requires SoundOps(ops) && Accounts(t0, s) && AllSafe(s, ops)
    ensures Accounts(t0, Run(s, ops))
    decreases |ops|
  {
    if ops != [] {
      StepAccounts(t0, s, ops[0]);
      RunAccounts(t0, Step(s, ops[0]), ops[1..]);
    }
  }

  /** Rollback inverts setup: after any sequence of safe journaled steps, failed ones
    * included, it restores the starting tree exactly. */
  lemma SetupUndone(t0: Tree, ops: seq<Op>)
    requires IsTree(t0) && SoundOps(ops)
    requires AllSafe(State(t0, EMPTY), ops)
    ensures Undone(Run(State(t0, EMPTY), ops)) == t0
  {
    StartAccounts(t0);
    RunAccounts(t0, State(t0, EMPTY), ops);
    UndoneIsStart(t0, Run(State(t0, EMPTY), ops));
  }

  // ---- exactly when one more step can be rolled back -------------------------------------

  lemma {:induction false} RemoveDirsKeeps(t: Tree, dirs: seq<Path>, q: Path)
    ensures q !in t ==> q !in RemoveDirs(t, dirs)
    ensures q in t && q !in dirs ==> q in RemoveDirs(t, dirs)
    decreases |dirs|
  {
    if dirs != [] {
      RemoveDirsKeeps(RemoveEmpty(t, dirs[|dirs| - 1]), dirs[..|dirs| - 1], q);
    }
  }

  /** What rollback makes of one path. */
  lemma UndoneAt(s: State, q: Path)
    ensures q !in s.tree && q !in s.log.modified ==> q !in Undone(s)
    ensures Covered(s.log.created, q) ==> q !in Undone(s)
    ensures q in s.tree && q !in s.log.dirs && !Covered(s.log.created, q) ==> q in Undone(s)
  {
    var restored := RestoreFiles(s.tree, s.log.modified);
    RemoveCreatedSpec(restored, s.log.created);
    RemoveDirsKeeps(RemoveCreated(restored, s.log.created), s.log.dirs, q);
  }

  lemma {:induction false} RemoveDirsValue(t: Tree, dirs: seq<Path>, q: Path)
    ensures q in RemoveDirs(t, dirs) ==> q in t && RemoveDirs(t, dirs)[q] == t[q]
    decreases |dirs|
  {
    if dirs != [] {
      RemoveDirsValue(RemoveEmpty(t, dirs[|dirs| - 1]), dirs[..|dirs| - 1], q);
    }
  }

  /** A directory stays one or goes; an unjournaled file keeps what it holds. */
  lemma UndoneValue(s: State, q: Path)
    requires q in s.tree && (IsDir(s.tree, q) || q !in s.log.modified)
    ensures q in Undone(s) ==> Undone(s)[q] == s.tree[q]
  {
    var restored := RestoreFiles(s.tree, s.log.modified);
    RemoveCreatedSpec(restored, s.log.created);
    RemoveDirsValue(RemoveCreated(restored, s.log.created), s.log.dirs, q);
  }

  lemma GoneWasThere(t0: Tree, s: State, p: Path)
    requires Accounts(t0, s) && Gone(s, p)
    ensures p in t0 && t0[p].File?
  {
    assert PathOk(t0, s, p);
  }

  /** A recorded file that is gone is lost for good once it counts as created. */
  lemma GoneIsLost(t0: Tree, s: State, s': State, p: Path)
    requires Accounts(t0, s) && Gone(s, p) && p in s'.log.created
    ensures Undone(s') != t0
  {
    GoneWasThere(t0, s, p);
    assert Covered(s'.log.created, p);
    UndoneAt(s', p);
  }

  lemma DirectoryInstead(t0: Tree, s: State, s': State, p: Path)
    requires Accounts(t0, s) && Gone(s, p) && IsDir(s'.tree, p)
    ensures Undone(s') != t0
  {
    GoneWasThere(t0, s, p);
    UndoneValue(s', p);
  }

  lemma StrayDirectory(t0: Tree, s: State, s': State, m: Path)
    requires Accounts(t0, s) && m !in s.tree && !Covered(s.log.created, m)
    requires IsDir(s'.tree, m) && s'.log.dirs == s.log.dirs && !Covered(s'.log.created, m)
    ensures Undone(s') != t0
  {
    assert PathOk(t0, s, m);
    if Gone(s, m) {
      DirectoryInstead(t0, s, s', m);
    } else {
      UndoneAt(s', m);
    }
  }

  lemma LostFile(t0: Tree, s: State, s': State, q: Path)
    requires Accounts(t0, s) && q in s.tree && s.tree[q].File? && !Journaled(s.log, q)
    requires q !in s'.tree && q !in s'.log.modified
    ensures Undone(s') != t0
  {
    assert PathOk(t0, s, q);
    UndoneAt(s', q);
  }

  lemma StrayFile(t0: Tree, s: State, s': State, q: Path, data: Bytes)
    requires Accounts(t0, s) && !Journaled(s.log, q) && !IsDir(s.tree, q)
    requires q in s.tree ==> s.tree[q] != File(data)
    requires q in s'.tree && s'.tree[q] == File(data) && !Journaled(s'.log, q) && (q in s'.log.dirs <==> q in s.log.dirs)
    ensures Undone(s') != t0
  {
    assert PathOk(t0, s, q);
    UndoneAt(s', q);
    UndoneValue(s', q);
  }

  lemma MkdirUnsafe(t0: Tree, s: State, p: Path)
    requires Accounts(t0, s) && !DirsFree(s, p)
    ensures Undone(MkdirStep(s, p)) != t0
  {
    var m :| m in Missing(s.tree, p) && Gone(s, m);
    DirectoryInstead(t0, s, MkdirStep(s, p), m);
  }

  lemma NotedGone(s: State, p: Path)
    requires Gone(s, p)
    ensures Noted(s.tree, s.log, p).Some? && p in Noted(s.tree, s.log, p).value.created
  {
    assert p in s.log.created ==> Covered(s.log.created, p);
  }

  lemma CopyUnsafe(t0: Tree, s: State, op: Op)
    requires op.path != [] && op.CopyTree? && Accounts(t0, s) && CanMake(s.tree, Parent(op.path)) && !Safe(s, op)
    ensures Undone(Step(s, op)) != t0
  {
    var p := op.path;
    var made := MkdirStep(s, Parent(p));
    MissingOrdered(s.tree, Parent(p));
    if Gone(s, p) {
      assert p !in Missing(s.tree, Parent(p));
      NotedGone(made, p);
      GoneIsLost(t0, s, Step(s, op), p);
    } else {
      var m :| m in Missing(s.tree, Parent(p)) && Gone(s, m);
      PlantedKeepsDirs(made.tree, p, op.sub, m);
      DirectoryInstead(t0, s, Step(s, op), m);
    }
  }

  lemma PlantedKeepsDirs(t: Tree, p: Path, sub: Tree, m: Path)
    requires p != [] && IsDir(t, m) && |m| < |p|
    ensures IsDir(Planted(t, p, sub), m)
  {
    if p !in t && IsDir(t, Parent(p)) {
      PlantedAt(t, p, sub, m);
    }
  }

  /** The temporary sibling after a write that is not safe. */
  lemma TmpUnsafe(t0: Tree, s: State, p: Path, data: Bytes, log: Log)
    requires p != [] && Accounts(t0, s) && Noted(s.tree, s.log, p) == Some(log) && !TmpSafe(s, p, data)
    ensures Undone(State(WriteAside(s.tree, p, data), log)) != t0
  {
    var s' := State(WriteAside(s.tree, p, data), log);
    TmpIsBeside(p);
    CoveredMore(s, p, log);
    assert Tmp(p) in log.modified <==> Tmp(p) in s.log.modified;
    if IsDir(s.tree, p) {
      StrayFile(t0, s, s', Tmp(p), data);
    } else {
      LostFile(t0, s, s', Tmp(p));
    }
  }

  lemma JsonUnsafe(t0: Tree, s: State, p: Path, data: Bytes, log: Log, m: Path)
    requires p != [] && Accounts(t0, s) && Noted(s.tree, s.log, p) == Some(log) && CanMake(s.tree, Parent(p))
    requires m in Missing(s.tree, Parent(p)) && !Covered(s.log.created, m)
    ensures Undone(State(WriteAside(MakeDirs(s.tree, Parent(p)), p, data), log)) != t0
  {
    var made := MakeDirs(s.tree, Parent(p));
    MissingOrdered(s.tree, Parent(p));
    TmpIsBeside(p);
    CoveredMore(s, p, log);
    assert |m| < |p| && !(p <= m) && m != p && m != Tmp(p);
    assert IsDir(made, m) && IsDir(WriteAside(made, p, data), m);
    StrayDirectory(t0, s, State(WriteAside(made, p, data), log), m);
  }

  lemma WriteUnsafe(t0: Tree, s: State, op: Op)
    requires op.path != [] && (op.WriteText? || op.WriteJson?) && Accounts(t0, s) && !Safe(s, op)
    ensures Undone(Step(s, op)) != t0
  {
    var p := op.path;
    var log := Noted(s.tree, s.log, p).value;
    if Gone(s, p) {
      NotedGone(s, p);
      GoneIsLost(t0, s, Step(s, op), p);
    } else if op.WriteText? {
      TmpUnsafe(t0, s, p, op.data, log);
    } else if !DirsCovered(s, Parent(p)) {
      var m :| m in Missing(s.tree, Parent(p)) && !Covered(s.log.created, m);
      JsonUnsafe(t0, s, p, op.data, log, m);
    } else {
      TmpThere(s.tree, p);
      TmpUnsafe(t0, s, p, op.data, log);
    }
  }

  lemma TmpThere(t: Tree, p: Path)
    requires p != [] && Writable(t, Tmp(p))
    ensures MakeDirs(t, Parent(p)) == t
  {
    TmpIsBeside(p);
  }

  /** One more step can be rolled back if and only if it is safe. */
  lemma StepUndoneExactly(t0: Tree, s: State, op: Op)
    requires SoundOp(op) && Accounts(t0, s)
    ensures Undone(Step(s, op)) == t0 <==> Safe(s, op)
  {
    if Safe(s, op) {
      StepAccounts(t0, s, op);
      UndoneIsStart(t0, Step(s, op));
    } else {
      match op
      case Mkdir(p) => MkdirUnsafe(t0, s, p);
      case CopyTree(_, _) => CopyUnsafe(t0, s, op);
      case WriteInPlace(p, _) =>
        NotedGone(s, p);
        GoneIsLost(t0, s, Step(s, op), p);
      case WriteText(_, _) => WriteUnsafe(t0, s, op);
      case WriteJson(_, _) => WriteUnsafe(t0, s, op);
    }
  }

  /** Failing cases of a fresh journal: a file named like the temporary sibling
    * is lost, and a missing parent directory stays behind. */
  lemma LeftoverTmpIsLost(t0: Tree, name: string, was: Bytes, data: Bytes)
    requires IsTree(t0) && [name] !in t0 && [name + ".tmp"] in t0 && t0[[name + ".tmp"]] == File(was)
    ensures Undone(Step(State(t0, EMPTY), WriteText([name], data))) != t0
  {
    var op := WriteText([name], data);
    assert Tmp([name]) == [name + ".tmp"];
    StartAccounts(t0);
    StepUndoneExactly(t0, State(t0, EMPTY), op);
  }

  lemma MissingParentStays(t0: Tree, dir: string, name: string, data: Bytes)
    requires IsTree(t0) && [dir] !in t0
    ensures Undone(Step(State(t0, EMPTY), WriteJson([dir, name], data))) != t0
  {
    assert Parent([dir, name]) == [dir];
    StartAccounts(t0);
    AnchorAbove(t0, [dir]);
    MissingIsAll(t0, [dir], [dir]);
    assert Anchor(t0, [dir]) == [];
    assert [dir, name] !in t0 by {
      if [dir, name] in t0 { Ancestors(t0, [dir, name], [dir]); }
    }
    StepUndoneExactly(t0, State(t0, EMPTY), WriteJson([dir, name], data));
  }

  lemma RecordedFirst(t0: Tree, q: Path, was: Bytes, data: Bytes)
    requires IsTree(t0) && q != [] && q in t0 && t0[q] == File(was) && Tmp(q) !in t0
    ensures Safe(State(t0, EMPTY), WriteText(q, data))
    ensures Step(State(t0, EMPTY), WriteText(q, data)) == State(t0[q := File(data)], Log([], [], map[q := was]))
  {
    TmpIsBeside(q);
    assert t0 - {Tmp(q)} == t0;
  }

  lemma TakenNext(t0: Tree, p: Path, was: Bytes, now: Bytes, data: Bytes)
    requires IsTree(t0) && p != [] && p !in t0 && Tmp(p) in t0 && t0[Tmp(p)] == File(was)
    ensures var s := State(t0[Tmp(p) := File(now)], Log([], [], map[Tmp(p) := was]));
            Safe(s, WriteText(p, data)) && Gone(Step(s, WriteText(p, data)), Tmp(p))
  {
    TmpIsBeside(p);
    var s := State(t0[Tmp(p) := File(now)], Log([], [], map[Tmp(p) := was]));
    CoveredAfter(s.log.created, p);
  }

  /** A recorded file that a write took for its temporary sibling, and that is then
    * written again, is lost. */
  lemma RewrittenTmpIsLost(t0: Tree, p: Path, was: Bytes, a: Bytes, b: Bytes, c: Bytes)
    requires IsTree(t0) && p != [] && p !in t0 && Tmp(p) in t0 && t0[Tmp(p)] == File(was) && Tmp(Tmp(p)) !in t0
    ensures var s1 := Step(State(t0, EMPTY), WriteText(Tmp(p), a));
            var s2 := Step(s1, WriteText(p, b));
            Undone(s1) == t0 && Undone(s2) == t0 && Undone(Step(s2, WriteText(Tmp(p), c))) != t0
  {
    var s1 := Step(State(t0, EMPTY), WriteText(Tmp(p), a));
    StartAccounts(t0);
    RecordedFirst(t0, Tmp(p), was, a);
    StepUndoneExactly(t0, State(t0, EMPTY), WriteText(Tmp(p), a));
    StepAccounts(t0, State(t0, EMPTY), WriteText(Tmp(p), a));
    TakenNext(t0, p, was, a, b);
    StepUndoneExactly(t0, s1, WriteText(p, b));
    StepAccounts(t0, s1, WriteText(p, b));
    NotedGone(Step(s1, WriteText(p, b)), Tmp(p));
    StepUndoneExactly(t0, Step(s1, WriteText(p, b)), WriteText(Tmp(p), c));
  }

  // ---- the journal as an object -----------------------------------------------------------

  class Disk {
    var tree: Tree

    constructor (t: Tree)
      ensures tree == t
    {
      tree := t;
    }
  }

  function Reversed(s: seq<Path>): seq<Path> {
    if s == [] then [] else Reversed(s[1..]) + [s[0]]
  }

  lemma ReversedSnoc(s: seq<Path>, x: Path)
    ensures Reversed(s + [x]) == [x] + Reversed(s)
  {
    if s != [] {
      assert (s + [x])[1..] == s[1..] + [x];
      ReversedSnoc(s[1..], x);
    }
  }

  lemma RestoreOne(t: Tree, done: map<Path, Bytes>, p: Path, data: Bytes)
    ensures WriteFile(RestoreFiles(t, done), p, data) == RestoreFiles(t, done[p := data])
  {
    assert IsDir(RestoreFiles(t, done), Parent(p)) <==> IsDir(t, Parent(p));
    assert IsDir(RestoreFiles(t, done), p) <==> IsDir(t, p);
  }

  class Journal {
    var created: seq<Path>
    var createdDirs: seq<Path>
    var modified: map<Path, Bytes>

    constructor ()
      ensures AsLog() == EMPTY
    {
      created, createdDirs, modified := [], [], map[];
    }

    ghost function AsLog(): Log
      reads this
    {
      Log(created, createdDirs, modified)
    }

    /** The missing directories on the way to `path`, deepest first. */
    static method Probe(disk: Disk, path: Path) returns (missing: seq<Path>)
      requires IsTree(disk.tree)
      ensures Reversed(missing) == Missing(disk.tree, path)
    {
      missing := [];
      var probe := path;
      while probe !in disk.tree
        invariant Missing(disk.tree, path) == Missing(disk.tree, probe) + Reversed(missing)
        decreases |probe|
      {
        ReversedSnoc(missing, probe);
        missing := missing + [probe];
        probe := Parent(probe);
      }
    }

    method Mkdir(disk: Disk, path: Path) returns (ok: bool)
      requires IsTree(disk.tree)
      modifies this, disk
      ensures ok == old(CanMake(disk.tree, path))
      ensures State(disk.tree, AsLog()) == MkdirStep(old(State(disk.tree, AsLog())), path)
    {
      var missing := Probe(disk, path);
      ok := CanMake(disk.tree, path);
      if ok {
        disk.tree := MakeDirs(disk.tree, path);
        createdDirs := createdDirs + Reversed(missing);
      }
    }

    method BeforeWrite(disk: Disk, path: Path) returns (ok: bool)
      modifies this
      ensures var logged := Noted(disk.tree, old(AsLog()), path);
              ok == logged.Some? && AsLog() == if ok then logged.value else old(AsLog())
    {
      ok := true;
      if path in disk.tree {
        if path !in modified && path !in created {
          if disk.tree[path].Dir? {
            return false;
          }
          modified := modified[path := disk.tree[path].data];
        }
      } else if path !in created {
        created := created + [path];
      }
    }

    method WriteText(disk: Disk, path: Path, data: Bytes)
      requires path != []
      modifies this, disk
      ensures State(disk.tree, AsLog()) == Step(old(State(disk.tree, AsLog())), Op.WriteText(path, data))
    {
      var ok := BeforeWrite(disk, path);
      if ok {
        disk.tree := WriteAside(disk.tree, path, data);
      }
    }

    method WriteJson(disk: Disk, path: Path, data: Bytes)
      requires path != []
      modifies this, disk
      ensures State(disk.tree, AsLog()) == Step(old(State(disk.tree, AsLog())), Op.WriteJson(path, data))
    {
      var ok := BeforeWrite(disk, path);
      if ok && CanMake(disk.tree, Parent(path)) {
        disk.tree := MakeDirs(disk.tree, Parent(path));
        disk.tree := WriteAside(disk.tree, path, data);
      }
    }

    method RestoreModified(disk: Disk)
      modifies disk
      ensures disk.tree == RestoreFiles(old(disk.tree), modified)
    {
      ghost var done: map<Path, Bytes> := map[];
      var todo := modified.Keys;
      while todo != {}
        invariant todo <= modified.Keys && done.Keys == modified.Keys - todo
        invariant forall q | q in done :: done[q] == modified[q]
        invariant disk.tree == RestoreFiles(old(disk.tree), done)
        decreases |todo|
      {
        var path :| path in todo;
        RestoreOne(old(disk.tree), done, path, modified[path]);
        disk.tree := WriteFile(disk.tree, path, modified[path]);
        done := done[path := modified[path]];
        todo := todo - {path};
      }
      assert done == modified;
    }

    method RemoveCreatedFiles(disk: Disk)
      modifies disk
      ensures disk.tree == RemoveCreated(old(disk.tree), created)
    {
      var i := |created|;
      assert created[..i] == created;
      while i > 0
        invariant 0 <= i <= |created|
        invariant RemoveCreated(disk.tree, created[..i]) == RemoveCreated(old(disk.tree), created)
      {
        i := i - 1;
        assert created[..i + 1][..i] == created[..i];
        disk.tree := Remove(disk.tree, created[i]);
      }
    }

    method RemoveCreatedDirs(disk: Disk)
      modifies disk
      ensures disk.tree == RemoveDirs(old(disk.tree), createdDirs)
    {
      var i := |createdDirs|;
      assert createdDirs[..i] == createdDirs;
      while i > 0
        invariant 0 <= i <= |createdDirs|
        invariant RemoveDirs(disk.tree, createdDirs[..i]) == RemoveDirs(old(disk.tree), createdDirs)
      {
        i := i - 1;
        assert createdDirs[..i + 1][..i] == createdDirs[..i];
        disk.tree := RemoveEmpty(disk.tree, createdDirs[i]);
      }
    }

    /** `rollback`: old contents back, created files gone, created directories gone. */
    method Rollback(disk: Disk)
      modifies disk
      ensures disk.tree == old(Undone(State(disk.tree, AsLog())))
    {
      RestoreModified(disk);
      RemoveCreatedFiles(disk);
      RemoveCreatedDirs(disk);
    }
  }
}
