/** What one undisturbed write, sweep or failed write does to the directory (api_server/controls.py,
    `_sweep_stale_temps` and `_write_controls`). */
module AtomicRuns {
  import opened AtomicFile
  import opened Text

  /** A temp name is one that begins with ".controls." and ends with ".tmp". */
  lemma TempNames(name: string)
    ensures IsTemp(name) <==> (exists a :: name == ".controls." + a) && exists b :: name == b + ".tmp"
  {
    if IsTemp(name) {
      assert name == ".controls." + name[10..] && name == name[..|name| - 4] + ".tmp";
    }
    if (exists a :: name == ".controls." + a) && exists b :: name == b + ".tmp" {
      var a :| name == ".controls." + a;
      var b :| name == b + ".tmp";
      Overlap(name, a, b);
    }
  }

  lemma Overlap(name: string, a: string, b: string)
    requires name == ".controls." + a && name == b + ".tmp"
    ensures IsTemp(name)
  {
    assert name[..10] == ".controls." && name[|name| - 4..] == ".tmp";
    assert name[7] == name[..10][7] == 'l' && name[8] == name[..10][8] == 's' && name[9] == name[..10][9] == '.';
    assert name[|name| - 3] == name[|name| - 4..][1] == 't';
  }

  predicate Follows(s: State, a: Action, t: State) { Step(s, a) == Some(t) }

  lemma TakesStep(s: State, a: Action, rest: seq<Action>, t: State)
    requires Follows(s, a, t)
    ensures Run(s, [a] + rest) == Run(t, rest)
  {
    assert ([a] + rest)[1..] == rest;
  }

  lemma NoMore(s: State)
    ensures Run(s, []) == Some(s)
  {}

  /** A writer's calls up to a whole temp file. */
  function Drafting(w: nat, text: string, name: string): seq<Action> {
    [Begin(w, text)] + ([List(w, [])] + ([Create(w, name)] + ([Write(w, |text|)] + [])))
  }

  /** The state with the draft in it. */
  function Drafted(s: State, w: nat, text: string, name: string): State {
    s.(writers := s.writers[w := Writing(name, |s.inodes|, "")], dir := s.dir[name := |s.inodes|],
       inodes := s.inodes + [Inode(text, text, s.now, s.now)])
  }

  predicate Free(s: State, w: nat, name: string) { w !in s.writers && IsTemp(name) && name !in s.dir }

  lemma DraftsWhole(s: State, w: nat, text: string, name: string, rest: seq<Action>)
    requires Free(s, w, name)
    ensures Run(s, Drafting(w, text, name) + rest) == Run(Drafted(s, w, text, name), rest)
  {
    var s1 := s.(writers := s.writers[w := Listing(text, s.now - 60)]);
    var s2 := s.(writers := s.writers[w := Sweeping(text, s.now - 60, [], None)]);
    var s3 := s.(writers := s.writers[w := Writing(name, |s.inodes|, text)], dir := s.dir[name := |s.inodes|],
                 inodes := s.inodes + [Inode("", text, s.now, s.now)]);
    var s4 := Drafted(s, w, text, name);
    var a1, a2, a3, a4 := Begin(w, text), List(w, []), Create(w, name), Write(w, |text|);
    assert Follows(s, a1, s1);
    assert s1.writers[w := Sweeping(text, s.now - 60, [], None)] == s2.writers;
    assert Follows(s1, a2, s2);
    assert s2.writers[w := Writing(name, |s.inodes|, text)] == s3.writers;
    assert Follows(s2, a3, s3);
    WritesAll(s, w, text, name);
    assert Follows(s3, a4, s4);
    TakesStep(s3, a4, rest, s4);
    TakesStep(s2, a3, [a4] + rest, s3);
    TakesStep(s1, a2, [a3] + ([a4] + rest), s2);
    TakesStep(s, a1, [a2] + ([a3] + ([a4] + rest)), s1);
    assert Drafting(w, text, name) + rest == [a1] + ([a2] + ([a3] + ([a4] + rest)));
  }

  lemma WritesAll(s: State, w: nat, text: string, name: string)
    ensures var s3 := s.(writers := s.writers[w := Writing(name, |s.inodes|, text)], dir := s.dir[name := |s.inodes|],
                         inodes := s.inodes + [Inode("", text, s.now, s.now)]);
            Follows(s3, Write(w, |text|), Drafted(s, w, text, name))
  {
    var n := |s.inodes|;
    var inodes := s.inodes + [Inode("", text, s.now, s.now)];
    assert text[|text|..] == "" && "" + text[..|text|] == text;
    assert inodes[n := Inode(text, text, s.now, s.now)] == s.inodes + [Inode(text, text, s.now, s.now)];
    assert s.writers[w := Writing(name, n, text)][w := Writing(name, n, "")] == s.writers[w := Writing(name, n, "")];
  }

  /** The directory with the draft in the control file's place. */
  function Published(s: State, text: string): State {
    s.(dir := s.dir[PATH := |s.inodes|], inodes := s.inodes + [Inode(text, text, s.now, s.now)],
       published := s.published + {|s.inodes|})
  }

  lemma ReplacesDraft(s: State, w: nat, text: string, name: string)
    requires Free(s, w, name)
    ensures Follows(Drafted(s, w, text, name), Replace(w), Published(s, text))
  {
    var d := Drafted(s, w, text, name);
    assert name != PATH;
    assert d.dir - {name} == s.dir && d.writers - {w} == s.writers;
  }

  /** A write that nothing disturbs makes its whole text the control file and leaves nothing else behind. */
  lemma WritePublishes(s: State, w: nat, text: string, name: string)
    requires Free(s, w, name)
    ensures Run(s, Drafting(w, text, name) + [Replace(w)]) == Some(Published(s, text))
  {
    hide Step, Run, Drafting, Drafted, Published;
    DraftsWhole(s, w, text, name, [Replace(w)]);
    ReplacesDraft(s, w, text, name);
    TakesStep(Drafted(s, w, text, name), Replace(w), [], Published(s, text));
    assert [Replace(w)] + [] == [Replace(w)];
    NoMore(Published(s, text));
  }

  function WithReader(s: State, r: nat, x: Reader): State { s.(readers := s.readers[r := x]) }

  /** A read gets as many characters as it asks for while there are as many, and the end once there is none. */
  lemma ReadTakesPiece(s: State, r: nat, n: nat)
    requires r in s.readers && s.readers[r].inode < |s.inodes|
    requires s.readers[r].got <= s.inodes[s.readers[r].inode].content
    ensures var x := s.readers[r]; var text := s.inodes[x.inode].content; var left := |text| - |x.got|;
            var got := text[..|x.got| + if n < left then n else left];
            Follows(s, Read(r, n), WithReader(s, r, Reader(x.inode, got, left == 0)))
  {
    var x := s.readers[r];
    var text := s.inodes[x.inode].content;
    var to := |x.got| + if n < |text| - |x.got| then n else |text| - |x.got|;
    assert text[..|x.got|] == x.got && text[..|x.got|] + text[|x.got|..to] == text[..to];
  }

  /** A reader that opens the control file, takes its text and asks for more gets all of it and sees the end. */
  lemma ReadGetsAll(s: State, r: nat, more: nat)
    requires PATH in s.dir && s.dir[PATH] < |s.inodes| && r !in s.readers
    ensures var n := s.dir[PATH]; var text := s.inodes[n].content;
            Run(s, [Open(r)] + ([Read(r, |text|)] + ([Read(r, more)] + []))) == Some(WithReader(s, r, Reader(n, text, true)))
  {
    hide Run;
    var n := s.dir[PATH];
    var text := s.inodes[n].content;
    var looking := WithReader(s, r, Reader(n, "", false));
    var got := WithReader(s, r, Reader(n, text, 0 == |text|));
    var end := WithReader(s, r, Reader(n, text, true));
    assert Follows(s, Open(r), looking);
    ReadTakesPiece(looking, r, |text|);
    assert text[..|text|] == text && looking.readers[r := Reader(n, text, 0 == |text|)] == got.readers;
    ReadTakesPiece(got, r, more);
    assert got.readers[r := Reader(n, text, true)] == end.readers;
    TakesStep(got, Read(r, more), [], end);
    TakesStep(looking, Read(r, |text|), [Read(r, more)] + [], got);
    TakesStep(s, Open(r), [Read(r, |text|)] + ([Read(r, more)] + []), looking);
    NoMore(end);
  }

  /** A write that fails after any part of its text removes its temp file: the directory is as before. */
  lemma FailedWriteLeavesNothing(s: State, w: nat, text: string, name: string, n: nat)
    requires Free(s, w, name) && n <= |text|
    ensures var end := Run(s, [Begin(w, text)] + ([GiveUpSweep(w)] + ([Create(w, name)] + ([Write(w, n)]
                                + ([Fail(w)] + ([CleanUp(w)] + []))))));
            end.Some? && end.value.dir == s.dir && end.value.writers == s.writers
  {
    hide Run, Step;
    var s1 := s.(writers := s.writers[w := Listing(text, s.now - 60)]);
    var s2 := s.(writers := s.writers[w := Sweeping(text, s.now - 60, [], None)]);
    var s3 := s.(writers := s.writers[w := Writing(name, |s.inodes|, text)], dir := s.dir[name := |s.inodes|],
                 inodes := s.inodes + [Inode("", text, s.now, s.now)]);
    Creates(s, w, text, name);
    var end := FailsAndCleansUp(s, s3, w, text, name, n);
    var failing := [Write(w, n)] + ([Fail(w)] + ([CleanUp(w)] + []));
    TakesStep(s2, Create(w, name), failing, s3);
    TakesStep(s1, GiveUpSweep(w), [Create(w, name)] + failing, s2);
    TakesStep(s, Begin(w, text), [GiveUpSweep(w)] + ([Create(w, name)] + failing), s1);
  }

  lemma Creates(s: State, w: nat, text: string, name: string)
    requires Free(s, w, name)
    ensures var s1 := s.(writers := s.writers[w := Listing(text, s.now - 60)]);
            var s2 := s.(writers := s.writers[w := Sweeping(text, s.now - 60, [], None)]);
            var s3 := s.(writers := s.writers[w := Writing(name, |s.inodes|, text)], dir := s.dir[name := |s.inodes|],
                         inodes := s.inodes + [Inode("", text, s.now, s.now)]);
            Follows(s, Begin(w, text), s1) && Follows(s1, GiveUpSweep(w), s2) && Follows(s2, Create(w, name), s3)
  {
    var s1 := s.(writers := s.writers[w := Listing(text, s.now - 60)]);
    assert s1.writers[w := Sweeping(text, s.now - 60, [], None)] == s.writers[w := Sweeping(text, s.now - 60, [], None)];
    var s2 := s.(writers := s.writers[w := Sweeping(text, s.now - 60, [], None)]);
    assert s2.writers[w := Writing(name, |s.inodes|, text)] == s.writers[w := Writing(name, |s.inodes|, text)];
  }

  lemma FailsAndCleansUp(s: State, s3: State, w: nat, text: string, name: string, n: nat) returns (end: State)
    requires Free(s, w, name) && n <= |text|
    requires s3.writers == s.writers[w := Writing(name, |s.inodes|, text)] && s3.dir == s.dir[name := |s.inodes|]
    requires s3.inodes == s.inodes + [Inode("", text, s.now, s.now)]
    ensures Run(s3, [Write(w, n)] + ([Fail(w)] + ([CleanUp(w)] + []))) == Some(end)
    ensures end.dir == s.dir && end.writers == s.writers
  {
    hide Run;
    var s4 := AfterWrite(s3, w, s3.writers[w], n);
    var s5 := s4.(writers := s4.writers[w := Failed(name)]);
    end := s5.(writers := s5.writers - {w}, dir := s5.dir - {name});
    assert Follows(s3, Write(w, n), s4);
    assert Follows(s4, Fail(w), s5);
    assert Follows(s5, CleanUp(w), end);
    TakesStep(s5, CleanUp(w), [], end);
    TakesStep(s4, Fail(w), [CleanUp(w)] + [], s5);
    TakesStep(s3, Write(w, n), [Fail(w)] + ([CleanUp(w)] + []), s4);
    NoMore(end);
    assert end.dir == s.dir && end.writers == s.writers;
  }

  /** A temp file found in the directory is about to be removed exactly when it was last written more than a
      minute before the sweep began, and is then removed; a name that is gone is passed over. */
  lemma SweepTakesStale(s: State, w: nat, text: string, name: string)
    requires w !in s.writers && IsTemp(name) && (name in s.dir ==> s.dir[name] < |s.inodes|)
    ensures var stale := name in s.dir && s.inodes[s.dir[name]].modified < s.now - 60;
            var seen := Run(s, [Begin(w, text)] + ([List(w, [name])] + ([Stat(w)] + [])));
            && seen.Some? && w in seen.value.writers
            && seen.value.writers[w] == Sweeping(text, s.now - 60, [], if stale then Some(name) else None)
            && seen.value.dir == s.dir && seen.value.inodes == s.inodes
            && (stale ==> Step(seen.value, Unlink(w)).Some? && Step(seen.value, Unlink(w)).value.dir == s.dir - {name})
  {
    hide Run;
    var stale := name in s.dir && s.inodes[s.dir[name]].modified < s.now - 60;
    var s1 := s.(writers := s.writers[w := Listing(text, s.now - 60)]);
    var s2 := s.(writers := s1.writers[w := Sweeping(text, s.now - 60, [name], None)]);
    var s3 := s.(writers := s2.writers[w := Sweeping(text, s.now - 60, [], if stale then Some(name) else None)]);
    assert Follows(s, Begin(w, text), s1) && Follows(s1, List(w, [name]), s2);
    assert [name][1..] == [];
    assert Follows(s2, Stat(w), s3);
    TakesStep(s2, Stat(w), [], s3);
    TakesStep(s1, List(w, [name]), [Stat(w)] + [], s2);
    TakesStep(s, Begin(w, text), [List(w, [name])] + ([Stat(w)] + []), s1);
    NoMore(s3);
  }
}
