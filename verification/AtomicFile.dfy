/** Writers, readers and stale-temp sweeps around one control file (api_server/controls.py,
    `_sweep_stale_temps` and `_write_controls`), as a state machine over the system calls each
    process makes. Any process may be killed between two of its calls. */
module AtomicFile {
  import opened Text

  const PATH := "controls.json"
  const STALE := 60

  predicate IsTemp(name: string) {
    |name| >= 13 && name[..10] == ".controls." && name[|name| - 4..] == ".tmp"
  }

  /** A file: what it holds so far, the whole text its writer set out to write, and when it was
      created and last written. */
  datatype Inode = Inode(content: string, goal: string, created: int, modified: int)

  /** Where a writer stands between two system calls. */
  datatype Writer =
    | Listing(text: string, cutoff: int)
    | Sweeping(text: string, cutoff: int, names: seq<string>, doomed: Option<string>)
    | Writing(tmp: string, inode: nat, left: string)
    | Failed(tmp: string)

  /** A reader keeps the file it opened; `done` once it has seen the end. */
  datatype Reader = Reader(inode: nat, got: string, done: bool)

  /** `published` are the files that have stood at PATH. */
  datatype State = State(
    now: int, dir: map<string, nat>, inodes: seq<Inode>, published: set<nat>,
    writers: map<nat, Writer>, readers: map<nat, Reader>)

  datatype Action =
    | Tick(seconds: nat)
    | Begin(w: nat, text: string)
    | List(w: nat, names: seq<string>)
    | GiveUpSweep(w: nat)
    | Stat(w: nat)
    | Unlink(w: nat)
    | Create(w: nat, name: string)
    | Write(w: nat, n: nat)
    | Replace(w: nat)
    | Fail(w: nat)
    | CleanUp(w: nat)
    | Kill(w: nat)
    | Open(r: nat)
    | Read(r: nat, n: nat)
    | Close(r: nat)

  // ----- One system call ---------------------------------------------------------------------

  predicate InDir(s: State, name: string) { name in s.dir && s.dir[name] < |s.inodes| }

  function SetWriter(s: State, w: nat, x: Writer): State { s.(writers := s.writers[w := x]) }

  function Is(s: State, w: nat): Option<Writer> { if w in s.writers then Some(s.writers[w]) else None }

  /** `os.stat(path).st_mtime < cutoff`; a name that is gone is skipped. */
  function AfterStat(s: State, w: nat, x: Writer): State
    requires x.Sweeping? && x.names != []
  {
    var name := x.names[0];
    var stale := InDir(s, name) && s.inodes[s.dir[name]].modified < x.cutoff;
    SetWriter(s, w, x.(names := x.names[1..], doomed := if stale then Some(name) else None))
  }

  function AfterUnlink(s: State, w: nat, x: Writer): State
    requires x.Sweeping? && x.doomed.Some?
  {
    SetWriter(s, w, x.(doomed := None)).(dir := s.dir - {x.doomed.value})
  }

  /** `mkstemp`: a new, empty file under a name that does not exist. */
  function AfterCreate(s: State, w: nat, x: Writer, name: string): State
    requires x.Sweeping?
  {
    SetWriter(s, w, Writing(name, |s.inodes|, x.text)).(
      dir := s.dir[name := |s.inodes|], inodes := s.inodes + [Inode("", x.text, s.now, s.now)])
  }

  function AfterWrite(s: State, w: nat, x: Writer, n: nat): State
    requires x.Writing? && n <= |x.left| && x.inode < |s.inodes|
  {
    var file := s.inodes[x.inode];
    SetWriter(s, w, x.(left := x.left[n..])).(
      inodes := s.inodes[x.inode := file.(content := file.content + x.left[..n], modified := s.now)])
  }

  /** `os.replace(tmp, path)`: atomic; it fails when the temp name is gone. */
  function AfterReplace(s: State, w: nat, x: Writer): State
    requires x.Writing?
  {
    if x.tmp in s.dir then
      s.(dir := (s.dir - {x.tmp})[PATH := s.dir[x.tmp]], published := s.published + {s.dir[x.tmp]},
        writers := s.writers - {w})
    else SetWriter(s, w, Failed(x.tmp))
  }

  /** The step an action makes, or nothing when the process is not at that call. */
  function Step(s: State, a: Action): Option<State> {
    match a
    case Tick(seconds) => Some(s.(now := s.now + seconds))
    case Begin(w, text) => if w in s.writers then None else Some(SetWriter(s, w, Listing(text, s.now - STALE)))
    case List(w, names) =>
      (match Is(s, w)
       case Some(Listing(text, cutoff)) =>
         if forall i :: 0 <= i < |names| ==> IsTemp(names[i])
         then Some(SetWriter(s, w, Sweeping(text, cutoff, names, None))) else None
       case _ => None)
    case GiveUpSweep(w) =>
      (match Is(s, w)
       case Some(Listing(text, cutoff)) => Some(SetWriter(s, w, Sweeping(text, cutoff, [], None)))
       case _ => None)
    case Stat(w) =>
      (match Is(s, w)
       case Some(x) => if x.Sweeping? && x.names != [] && x.doomed.None? then Some(AfterStat(s, w, x)) else None
       case _ => None)
    case Unlink(w) =>
      (match Is(s, w)
       case Some(x) => if x.Sweeping? && x.doomed.Some? then Some(AfterUnlink(s, w, x)) else None
       case _ => None)
    case Create(w, name) =>
      (match Is(s, w)
       case Some(x) =>
         if x.Sweeping? && x.names == [] && x.doomed.None? && IsTemp(name) && name !in s.dir
         then Some(AfterCreate(s, w, x, name)) else None
       case _ => None)
    case Write(w, n) =>
      (match Is(s, w)
       case Some(x) =>
         if x.Writing? && n <= |x.left| && x.inode < |s.inodes| then Some(AfterWrite(s, w, x, n)) else None
       case _ => None)
    case Replace(w) =>
      (match Is(s, w)
       case Some(x) => if x.Writing? && x.left == "" then Some(AfterReplace(s, w, x)) else None
       case _ => None)
    case Fail(w) =>
      (match Is(s, w)
       case Some(Writing(tmp, _, _)) => Some(SetWriter(s, w, Failed(tmp)))
       case _ => None)
    case CleanUp(w) =>
      (match Is(s, w)
       case Some(Failed(tmp)) => Some(s.(dir := s.dir - {tmp}, writers := s.writers - {w}))
       case _ => None)
    case Kill(w) => Some(s.(writers := s.writers - {w}))
    case Open(r) =>
      if PATH in s.dir && r !in s.readers
      then Some(s.(readers := s.readers[r := Reader(s.dir[PATH], "", false)])) else None
    case Read(r, n) =>
      if r in s.readers && s.readers[r].inode < |s.inodes| then Some(AfterRead(s, r, n)) else None
    case Close(r) => Some(s.(readers := s.readers - {r}))
  }

  /** A read gets the next `n` characters, or what is left; nothing left means the end. */
  function AfterRead(s: State, r: nat, n: nat): State
    requires r in s.readers && s.readers[r].inode < |s.inodes|
  {
    var x := s.readers[r];
    var content := s.inodes[x.inode].content;
    var from := if |x.got| <= |content| then |x.got| else |content|;
    var to := if from + n <= |content| then from + n else |content|;
    s.(readers := s.readers[r := Reader(x.inode, x.got + content[from..to], from == |content|)])
  }

  function Run(s: State, actions: seq<Action>): Option<State>
    decreases |actions|
  {
    if actions == [] then Some(s)
    else match Step(s, actions[0]) case None => None case Some(next) => Run(next, actions[1..])
  }

  /** Some process still goes by the name: a writer whose temp file it is, or a sweep about to remove it. */
  predicate Held(s: State, name: string) {
    exists w :: w in s.writers && Holds(s.writers[w], name)
  }

  predicate Holds(x: Writer, name: string) {
    (x.Writing? && x.tmp == name) || (x.Sweeping? && x.doomed == Some(name))
  }

  /** No temp name is handed out again while a process still goes by it. */
  predicate FreshNames(s: State, actions: seq<Action>)
    decreases |actions|
  {
    if actions == [] then true
    else
      && (actions[0].Create? ==> !Held(s, actions[0].name))
      && match Step(s, actions[0]) case None => true case Some(next) => FreshNames(next, actions[1..])
  }

  // ----- What every step keeps ----------------------------------------------------------------------

  predicate Whole(f: Inode) { f.content == f.goal }

  /** The file at PATH is absent or the complete text of one whole write, and so is the file any
      reader has open; a reader that reached the end has got all of it. */
  ghost predicate Safe(s: State) {
    && (PATH in s.dir ==> s.dir[PATH] < |s.inodes| && Whole(s.inodes[s.dir[PATH]]))
    && forall r :: r in s.readers ==>
         && s.readers[r].inode < |s.inodes| && Whole(s.inodes[s.readers[r].inode])
         && s.readers[r].got <= s.inodes[s.readers[r].inode].goal
         && (s.readers[r].done ==> s.readers[r].got == s.inodes[s.readers[r].inode].goal)
  }

  ghost predicate WriterOk(s: State, x: Writer) {
    match x
    case Listing(_, cutoff) => cutoff <= s.now - STALE
    case Sweeping(_, cutoff, names, doomed) =>
      && cutoff <= s.now - STALE
      && (forall i :: 0 <= i < |names| ==> IsTemp(names[i]))
      && (doomed.Some? ==>
            && IsTemp(doomed.value)
            && (InDir(s, doomed.value) ==> s.inodes[s.dir[doomed.value]].created < cutoff))
    case Writing(tmp, inode, left) =>
      && IsTemp(tmp) && inode < |s.inodes| && inode !in s.published
      && s.inodes[inode].content + left == s.inodes[inode].goal
      && (tmp in s.dir ==> s.dir[tmp] == inode)
    case Failed(tmp) => IsTemp(tmp)
  }

  ghost predicate FilesOk(s: State) {
    && (forall name :: name in s.dir ==> s.dir[name] < |s.inodes|)
    && (forall name :: name in s.dir && IsTemp(name) ==> s.dir[name] !in s.published)
    && (PATH in s.dir ==> s.dir[PATH] in s.published)
    && (forall i :: i in s.published ==> i < |s.inodes| && Whole(s.inodes[i]))
    && (forall i :: 0 <= i < |s.inodes| ==> s.inodes[i].created <= s.inodes[i].modified <= s.now)
  }

  ghost predicate WritersOk(s: State) {
    && (forall w :: w in s.writers ==> WriterOk(s, s.writers[w]))
    && (forall v, w :: v in s.writers && w in s.writers && v != w && s.writers[v].Writing? && s.writers[w].Writing? ==>
          s.writers[v].inode != s.writers[w].inode)
    && (forall w, name :: w in s.writers && s.writers[w].Writing? && name in s.dir && s.dir[name] == s.writers[w].inode ==>
          name == s.writers[w].tmp)
  }

  ghost predicate ReadersOk(s: State) {
    forall r :: r in s.readers ==>
      && s.readers[r].inode in s.published && s.readers[r].inode < |s.inodes|
      && s.readers[r].got <= s.inodes[s.readers[r].inode].goal
      && (s.readers[r].done ==> s.readers[r].got == s.inodes[s.readers[r].inode].goal)
  }

  ghost predicate Inv(s: State) { FilesOk(s) && WritersOk(s) && ReadersOk(s) }

  lemma InvIsSafe(s: State)
    requires Inv(s)
    ensures Safe(s)
  {}

  lemma PathIsNoTemp()
    ensures !IsTemp(PATH)
  {
    assert PATH[0] == 'c' && ".controls."[0] == '.';
    if |PATH| >= 10 { assert PATH[..10][0] == 'c'; }
  }

  lemma WriterSteps(s: State, w: nat, x: Writer)
    requires Inv(s) && w in s.writers && s.writers[w] == x && x.Sweeping?
    ensures x.names != [] && x.doomed.None? ==> Inv(AfterStat(s, w, x))
  {
    hide IsTemp;
  }

  lemma UnlinkKeeps(s: State, w: nat, x: Writer)
    requires Inv(s) && w in s.writers && s.writers[w] == x && x.Sweeping? && x.doomed.Some?
    ensures Inv(AfterUnlink(s, w, x))
  {
    hide IsTemp;
  }

  lemma CreateKeeps(s: State, w: nat, x: Writer, name: string)
    requires Inv(s) && w in s.writers && s.writers[w] == x && x.Sweeping? && x.names == [] && x.doomed.None?
    requires IsTemp(name) && name !in s.dir && !Held(s, name)
    ensures Inv(AfterCreate(s, w, x, name))
  {
    hide IsTemp;
    PathIsNoTemp();
  }

  lemma WriteKeeps(s: State, w: nat, x: Writer, n: nat)
    requires Inv(s) && w in s.writers && s.writers[w] == x && x.Writing? && n <= |x.left|
    ensures Inv(AfterWrite(s, w, x, n))
  {
    hide IsTemp;
  }

  lemma ReplaceKeeps(s: State, w: nat, x: Writer)
    requires Inv(s) && w in s.writers && s.writers[w] == x && x.Writing? && x.left == ""
    ensures Inv(AfterReplace(s, w, x))
  {
    hide IsTemp;
    PathIsNoTemp();
  }

  lemma ReadKeeps(s: State, r: nat, n: nat)
    requires Inv(s) && r in s.readers
    ensures Inv(AfterRead(s, r, n))
  {
    hide IsTemp;
  }

  lemma SetWriterKeeps(s: State, w: nat, x: Writer)
    requires Inv(s) && WriterOk(s, x) && !x.Writing?
    ensures Inv(SetWriter(s, w, x))
  {
    hide IsTemp;
  }

  lemma WriterMoves(s: State, a: Action)
    requires Inv(s) && Step(s, a).Some?
    requires a.Begin? || a.List? || a.GiveUpSweep? || a.Fail?
    ensures Inv(Step(s, a).value)
  {
    hide IsTemp, ReadersOk, FilesOk, SetWriter, AfterStat, AfterUnlink, AfterCreate, AfterWrite, AfterReplace,
         AfterRead;
    match a
    case Begin(w, text) => SetWriterKeeps(s, w, Listing(text, s.now - STALE));
    case List(w, names) => SetWriterKeeps(s, w, Sweeping(s.writers[w].text, s.writers[w].cutoff, names, None));
    case GiveUpSweep(w) => SetWriterKeeps(s, w, Sweeping(s.writers[w].text, s.writers[w].cutoff, [], None));
    case Fail(w) => SetWriterKeeps(s, w, Failed(s.writers[w].tmp));
  }

  lemma WriterLeaves(s: State, a: Action)
    requires Inv(s) && Step(s, a).Some? && (a.CleanUp? || a.Kill?)
    ensures Inv(Step(s, a).value)
  {
    hide IsTemp, AfterStat, AfterUnlink, AfterCreate, AfterWrite, AfterReplace, AfterRead;
    PathIsNoTemp();
  }

  lemma TickKeeps(s: State, seconds: nat)
    requires Inv(s)
    ensures Inv(s.(now := s.now + seconds))
  {
    hide IsTemp;
  }

  lemma ReadersKeep(s: State, readers: map<nat, Reader>)
    requires Inv(s) && ReadersOk(s.(readers := readers))
    ensures Inv(s.(readers := readers))
  {
    hide IsTemp;
  }

  lemma ReaderMoves(s: State, a: Action)
    requires Inv(s) && Step(s, a).Some? && (a.Tick? || a.Open? || a.Close?)
    ensures Inv(Step(s, a).value)
  {
    hide IsTemp, WritersOk;
    match a
    case Tick(seconds) => TickKeeps(s, seconds);
    case Open(r) => ReadersKeep(s, s.readers[r := Reader(s.dir[PATH], "", false)]);
    case Close(r) => ReadersKeep(s, s.readers - {r});
  }

  lemma StepKeeps(s: State, a: Action)
    requires Inv(s) && Step(s, a).Some? && (a.Create? ==> !Held(s, a.name))
    ensures Inv(Step(s, a).value)
  {
    hide Inv, AfterStat, AfterUnlink, AfterCreate, AfterWrite, AfterReplace, AfterRead;
    match a
    case Stat(w) => WriterSteps(s, w, s.writers[w]);
    case Unlink(w) => UnlinkKeeps(s, w, s.writers[w]);
    case Create(w, name) => CreateKeeps(s, w, s.writers[w], name);
    case Write(w, n) => WriteKeeps(s, w, s.writers[w], n);
    case Replace(w) => ReplaceKeeps(s, w, s.writers[w]);
    case Read(r, n) => ReadKeeps(s, r, n);
    case CleanUp(_) => WriterLeaves(s, a);
    case Kill(_) => WriterLeaves(s, a);
    case Tick(_) => ReaderMoves(s, a);
    case Open(_) => ReaderMoves(s, a);
    case Close(_) => ReaderMoves(s, a);
    case _ => WriterMoves(s, a);
  }

  lemma {:induction false} RunKeeps(s: State, actions: seq<Action>)
    requires Inv(s) && FreshNames(s, actions) && Run(s, actions).Some?
    ensures Inv(Run(s, actions).value)
    decreases |actions|
  {
    hide Inv, Step;
    if actions != [] {
      StepKeeps(s, actions[0]);
      RunKeeps(Step(s, actions[0]).value, actions[1..]);
    }
  }

  /** No process is running; whatever files there are, the one at PATH is whole. */
  ghost predicate Initial(s: State) {
    FilesOk(s) && s.writers == map[] && s.readers == map[]
  }

  // ----- The guarantees ----------------------------------------------------------------------------

  /** Under every interleaving of writers, readers, sweeps and kills, as long as no temp name is
      handed out while a process still goes by it: the control file is absent or whole, every reader
      gets a whole text, and a file about to be swept is more than the stale limit old. */
  lemma ControlFileIsAlwaysWhole(s: State, actions: seq<Action>)
    requires Initial(s) && FreshNames(s, actions) && Run(s, actions).Some?
    ensures var t := Run(s, actions).value;
            && Safe(t)
            && forall w :: w in t.writers && t.writers[w].Sweeping? && t.writers[w].doomed.Some?
                           && InDir(t, t.writers[w].doomed.value) ==>
                 t.now - t.inodes[t.dir[t.writers[w].doomed.value]].created > STALE
  {
    hide Run, FreshNames;
    RunKeeps(s, actions);
    InvIsSafe(Run(s, actions).value);
  }

  /** Every file's text is one a writer set out to write, and a file keeps its text. */
  ghost predicate Given(s: State, actions: seq<Action>, text: string) {
    || (exists i :: 0 <= i < |s.inodes| && s.inodes[i].goal == text)
    || (exists w :: w in s.writers && (s.writers[w].Listing? || s.writers[w].Sweeping?) && s.writers[w].text == text)
    || exists i :: 0 <= i < |actions| && actions[i].Begin? && actions[i].text == text
  }

  lemma GivenStep(s: State, a: Action, rest: seq<Action>, text: string)
    requires Step(s, a).Some? && Given(Step(s, a).value, rest, text)
    ensures Given(s, [a] + rest, text)
  {
    var all := [a] + rest;
    assert all[0] == a && forall i :: 0 <= i < |rest| ==> all[i + 1] == rest[i];
  }

  lemma {:induction false} EveryTextIsGiven(s: State, actions: seq<Action>, i: nat)
    requires Run(s, actions).Some? && i < |Run(s, actions).value.inodes|
    ensures Given(s, actions, Run(s, actions).value.inodes[i].goal)
    decreases |actions|
  {
    hide Step;
    if actions != [] {
      EveryTextIsGiven(Step(s, actions[0]).value, actions[1..], i);
      GivenStep(s, actions[0], actions[1..], Run(s, actions).value.inodes[i].goal);
      assert [actions[0]] + actions[1..] == actions;
    }
  }

  // ----- When a held name is handed out --------------------------------------------------------------

  lemma RunJoins(s: State, a: seq<Action>, b: seq<Action>)
    requires Run(s, a).Some?
    ensures Run(s, a + b) == Run(Run(s, a).value, b)
    decreases |a|
  {
    if a == [] {
      assert a + b == b;
    } else {
      assert (a + b)[0] == a[0] && (a + b)[1..] == a[1..] + b;
      RunJoins(Step(s, a[0]).value, a[1..], b);
    }
  }

  lemma RunThree(s: State, a: Action, b: Action, c: Action, s1: State, s2: State, s3: State)
    requires Step(s, a) == Some(s1) && Step(s1, b) == Some(s2) && Step(s2, c) == Some(s3)
    ensures Run(s, [a, b, c]) == Some(s3)
  {
    hide Step;
    assert [a, b, c][1..] == [b, c] && [b, c][1..] == [c] && [c][1..] == [];
    assert Run(s2, [c]) == Run(s3, []) == Some(s3);
  }

  /** Exactly then the guarantee is lost: whenever a writer whose temp file was swept goes on after
      its name was handed to another writer, the control file holds the other's unfinished text. */
  lemma HeldNameIsPublished(s: State, v: nat, w: nat)
    requires Inv(s) && v in s.writers && w in s.writers && v != w && s.writers[v].Writing? && s.writers[v].tmp !in s.dir
    requires s.writers[w].Sweeping? && s.writers[w].names == [] && s.writers[w].doomed.None? && s.writers[w].text != ""
    ensures var x := s.writers[v]; var t := Run(s, [Create(w, x.tmp), Write(v, |x.left|), Replace(v)]);
            t.Some? && !Safe(t.value)
  {
    hide IsTemp;
    var x := s.writers[v];
    var actions := [Create(w, x.tmp), Write(v, |x.left|), Replace(v)];
    var s1 := AfterCreate(s, w, s.writers[w], x.tmp);
    var s2 := AfterWrite(s1, v, s1.writers[v], |x.left|);
    var s3 := AfterReplace(s2, v, s2.writers[v]);
    assert s2.inodes[|s.inodes|] == Inode("", s.writers[w].text, s.now, s.now) && PATH in s3.dir && !Safe(s3);
    RunThree(s, actions[0], actions[1], actions[2], s1, s2, s3);
  }

  /** And whenever a sweep goes on after the name it is about to remove was handed out, it removes
      a file created at that very moment. */
  lemma HeldNameIsSwept(s: State, v: nat, w: nat)
    requires Inv(s) && v in s.writers && w in s.writers && v != w && s.writers[v].Sweeping? && s.writers[v].doomed.Some?
    requires s.writers[v].doomed.value !in s.dir
    requires s.writers[w].Sweeping? && s.writers[w].names == [] && s.writers[w].doomed.None?
    ensures var name := s.writers[v].doomed.value; var t := Step(s, Create(w, name));
            t.Some? && InDir(t.value, name) && t.value.inodes[t.value.dir[name]].created == t.value.now
            && Step(t.value, Unlink(v)).Some? && name !in Step(t.value, Unlink(v)).value.dir
  {
    hide IsTemp;
  }

  const NOTHING := State(0, map[], [], {}, map[], map[])

  /** A writer stalls with its temp file complete, and more than a minute later another one sweeps. */
  function Stalls(t: string): seq<Action> {
    [Begin(1, "ab"), GiveUpSweep(1), Create(1, t), Write(1, 2), Tick(100)]
  }
  function Sweeps(t: string): seq<Action> {
    [Begin(2, "cd"), List(2, [t]), Stat(2), Unlink(2)]
  }
  /** The name is handed out again, and the first writer wakes up. */
  function Wakes(t: string): seq<Action> {
    [Create(2, t), Write(2, 1), Replace(1)]
  }

  const FIRST := Inode("ab", "ab", 0, 0)

  function Stalled(t: string): State { State(100, map[t := 0], [FIRST], {}, map[1 := Writing(t, 0, "")], map[]) }

  function Swept(t: string): State {
    State(100, map[], [FIRST], {}, map[1 := Writing(t, 0, ""), 2 := Sweeping("cd", 40, [], None)], map[])
  }

  lemma StallsRuns(t: string)
    requires IsTemp(t)
    ensures Run(NOTHING, Stalls(t)) == Some(Stalled(t))
  {
    hide IsTemp;
    var a := Stalls(t);
    var s1 := SetWriter(NOTHING, 1, Listing("ab", -60));
    var s2 := SetWriter(s1, 1, Sweeping("ab", -60, [], None));
    var s3 := AfterCreate(s2, 1, s2.writers[1], t);
    var s4 := AfterWrite(s3, 1, s3.writers[1], 2);
    assert "" + "ab"[..2] == "ab" && "ab"[2..] == "";
    assert s4.inodes == [FIRST] && s4.writers == map[1 := Writing(t, 0, "")];
    assert s4.(now := 100) == Stalled(t);
    assert a[4..] == [Tick(100)];
    assert Run(s4, a[4..]) == Some(Stalled(t));
    assert Run(s2, a[2..]) == Some(Stalled(t));
  }

  lemma SweepsRuns(t: string)
    requires IsTemp(t)
    ensures Run(Stalled(t), Sweeps(t)) == Some(Swept(t))
  {
    hide IsTemp;
    var a := Sweeps(t);
    var s1 := SetWriter(Stalled(t), 2, Listing("cd", 40));
    var s2 := SetWriter(s1, 2, Sweeping("cd", 40, [t], None));
    var s3 := AfterStat(s2, 2, s2.writers[2]);
    assert s3.writers[2] == Sweeping("cd", 40, [], Some(t));
    var s4 := AfterUnlink(s3, 2, s3.writers[2]);
    assert s4.dir == map[] && s4.writers == Swept(t).writers;
    assert Run(s4, a[4..]) == Some(Swept(t));
    assert Run(s2, a[2..]) == Some(Swept(t));
  }

  lemma WakesRuns(t: string)
    requires IsTemp(t)
    ensures var s := Run(Swept(t), Wakes(t));
            && s.Some? && PATH in s.value.dir && s.value.dir[PATH] == 1
            && s.value.inodes == [FIRST, Inode("c", "cd", 100, 100)]
  {
    hide IsTemp;
    var a := Wakes(t);
    var s1 := AfterCreate(Swept(t), 2, Sweeping("cd", 40, [], None), t);
    var s2 := AfterWrite(s1, 2, s1.writers[2], 1);
    assert "" + "cd"[..1] == "c";
    assert s2.inodes == [FIRST, Inode("c", "cd", 100, 100)];
    var s3 := AfterReplace(s2, 1, s2.writers[1]);
    assert Run(s3, a[3..]) == Some(s3);
    assert Run(s2, a[2..]) == Some(s3);
  }

  /** With a temp name handed out twice, a rename can put another writer's unfinished file at PATH. */
  lemma ReusedNameIsPublished(t: string)
    requires IsTemp(t)
    ensures var s := Run(NOTHING, Stalls(t) + (Sweeps(t) + Wakes(t))); s.Some? && !Safe(s.value)
  {
    hide IsTemp, Run, Stalls, Sweeps, Wakes, Stalled, Swept;
    StallsRuns(t);
    SweepsRuns(t);
    WakesRuns(t);
    RunJoins(NOTHING, Stalls(t), Sweeps(t) + Wakes(t));
    RunJoins(Stalled(t), Sweeps(t), Wakes(t));
  }
}
