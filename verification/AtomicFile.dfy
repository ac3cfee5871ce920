/** Crash-safe file replacement: any number of writers of one destination, each through its own
    temporary sibling, interleaved with failures, kills and the reaper. */
module AtomicFile {
  import opened KgModel

  type Writer = nat
  type Data = seq<nat>

  datatype Path = Destination | Temporary(writer: Writer)

  /** A name may disappear while a writer still holds the file open: names lead to inodes, and
      a writer creates one inode, by opening its temporary once. */
  datatype Inode = Initial | Of(writer: Writer)

  datatype Phase = Writing | Written | Renamed | Failing | Over

  datatype World = World(files: map<Path, Inode>, contents: map<Writer, Data>, phases: map<Writer, Phase>)

  datatype Action =
    | Open(w: Writer)
    | WriteSome(w: Writer, length: nat)
    | FinishWriting(w: Writer)
    | Raise(w: Writer)
    | Rename(w: Writer)
    | Cleanup(w: Writer, removed: bool)
    | Kill(w: Writer)
    | Reap(w: Writer)

  predicate In(s: World, w: Writer, phase: Phase) {
    w in s.phases && s.phases[w] == phase && w in s.contents
  }

  /** Opening is possible once per temporary name; reaping needs nothing of its writer. */
  predicate Enabled(s: World, a: Action, output: Writer -> Data) {
    match a
    case Open(w) => w !in s.phases
    case WriteSome(w, length) => In(s, w, Writing) && |s.contents[w]| <= length <= |output(w)|
    case FinishWriting(w) => In(s, w, Writing) && s.contents[w] == output(w)
    case Raise(w) => In(s, w, Writing) || In(s, w, Written)
    case Rename(w) => In(s, w, Written)
    case Cleanup(w, _) => In(s, w, Failing)
    case Kill(w) => w in s.phases
    case Reap(w) => Temporary(w) in s.files
  }

  /** A rename whose temporary was reaped raises like any other failure. */
  function Step(s: World, a: Action, output: Writer -> Data): World
    requires Enabled(s, a, output)
  {
    match a
    case Open(w) =>
      World(s.files[Temporary(w) := Of(w)], s.contents[w := []], s.phases[w := Writing])
    case WriteSome(w, length) => s.(contents := s.contents[w := output(w)[..length]])
    case FinishWriting(w) => s.(phases := s.phases[w := Written])
    case Raise(w) => s.(phases := s.phases[w := Failing])
    case Rename(w) =>
      if Temporary(w) in s.files
      then s.(files := (s.files - {Temporary(w)})[Destination := s.files[Temporary(w)]], phases := s.phases[w := Renamed])
      else s.(phases := s.phases[w := Failing])
    case Cleanup(w, removed) =>
      s.(files := if removed then s.files - {Temporary(w)} else s.files, phases := s.phases[w := Over])
    case Kill(w) => s.(phases := s.phases[w := Over])
    case Reap(w) => s.(files := s.files - {Temporary(w)})
  }

  /** Complete contents only ever come by a rename; names lead where they should. */
  ghost predicate Inv(s: World, output: Writer -> Data) {
    && (forall w :: Temporary(w) in s.files ==> s.files[Temporary(w)] == Of(w))
    && (forall w :: In(s, w, Written) || In(s, w, Renamed) ==> s.contents[w] == output(w))
    && (Destination in s.files && s.files[Destination].Of? ==> Settled(s, s.files[Destination].writer, output))
  }

  /** Nothing writes to this inode any more, and it is complete. */
  ghost predicate Settled(s: World, w: Writer, output: Writer -> Data) {
    w in s.contents && s.contents[w] == output(w) && w in s.phases && (s.phases[w].Renamed? || s.phases[w].Over?)
  }

  /** What a reader of the destination sees. */
  function Visible(s: World, initial: Data): Option<Data> {
    if Destination !in s.files then None
    else match s.files[Destination]
      case Initial => Some(initial)
      case Of(w) => if w in s.contents then Some(s.contents[w]) else None
  }

  lemma StepKeepsInv(s: World, a: Action, output: Writer -> Data)
    requires Inv(s, output) && Enabled(s, a, output)
    ensures Inv(Step(s, a, output), output)
  {
  }

  ghost predicate Legal(s: World, trace: seq<Action>, output: Writer -> Data)
    decreases trace
  {
    trace == [] || (Enabled(s, trace[0], output) && Legal(Step(s, trace[0], output), trace[1..], output))
  }

  ghost function Replay(s: World, trace: seq<Action>, output: Writer -> Data): World
    requires Legal(s, trace, output)
    decreases trace
  {
    if trace == [] then s else Replay(Step(s, trace[0], output), trace[1..], output)
  }

  /** What the destination should hold: the output of the last writer whose rename found its
      temporary, or what it held before. */
  ghost function Expected(s: World, trace: seq<Action>, output: Writer -> Data, before: Option<Data>): Option<Data>
    requires Legal(s, trace, output)
    decreases trace
  {
    if trace == [] then before
    else
      var now := if trace[0].Rename? && Temporary(trace[0].w) in s.files then Some(output(trace[0].w)) else before;
      Expected(Step(s, trace[0], output), trace[1..], output, now)
  }

  lemma VisibleChangesOnlyByRename(s: World, a: Action, output: Writer -> Data, initial: Data)
    requires Inv(s, output) && Enabled(s, a, output)
    ensures Visible(Step(s, a, output), initial)
      == if a.Rename? && Temporary(a.w) in s.files then Some(output(a.w)) else Visible(s, initial)
  {
  }

  /** However writers, failures, kills and reaping interleave, the destination holds exactly
      what it held before or the complete output of the last writer that renamed. */
  lemma {:induction false} DestinationIsNeverTorn(s: World, trace: seq<Action>, output: Writer -> Data, initial: Data)
    requires Inv(s, output) && Legal(s, trace, output)
    ensures Inv(Replay(s, trace, output), output)
    ensures Visible(Replay(s, trace, output), initial) == Expected(s, trace, output, Visible(s, initial))
    decreases trace
  {
    if trace != [] {
      StepKeepsInv(s, trace[0], output);
      VisibleChangesOnlyByRename(s, trace[0], output, initial);
      DestinationIsNeverTorn(Step(s, trace[0], output), trace[1..], output, initial);
    }
  }

  /** Read as the documentation puts it: a prior snapshot or some writer's whole output. */
  lemma {:induction false} ExpectedIsWhole(s: World, trace: seq<Action>, output: Writer -> Data, before: Option<Data>)
    requires Legal(s, trace, output)
    ensures Expected(s, trace, output, before) == before
      || exists w :: Expected(s, trace, output, before) == Some(output(w))
    decreases trace
  {
    if trace != [] {
      var now := if trace[0].Rename? && Temporary(trace[0].w) in s.files then Some(output(trace[0].w)) else before;
      ExpectedIsWhole(Step(s, trace[0], output), trace[1..], output, now);
    }
  }

  function Before(destination: Inode): World {
    World(map[Destination := destination], map[], map[])
  }

  lemma FreshDirectorySatisfiesInv(output: Writer -> Data)
    ensures Inv(Before(Initial), output) && Inv(World(map[], map[], map[]), output)
  {
  }

  ghost predicate Follows(s: World, trace: seq<Action>, t: World, output: Writer -> Data) {
    Legal(s, trace, output) && Replay(s, trace, output) == t
  }

  lemma {:induction false} Extend(s: World, trace: seq<Action>, t: World, a: Action, output: Writer -> Data)
    requires Follows(s, trace, t, output) && Enabled(t, a, output)
    ensures Follows(s, trace + [a], Step(t, a, output), output)
    decreases trace
  {
    if trace == [] {
      assert (trace + [a])[1..] == [];
    } else {
      Extend(Step(s, trace[0], output), trace[1..], t, a, output);
      assert (trace + [a])[1..] == trace[1..] + [a];
    }
  }

  // ----- one writer and the reaper, as the program writes them -----

  /** Where one write goes wrong: the writing function raises, with or without a file, the
      rename raises, or the process is killed. `length` is how much was written by then. */
  datatype Fault = NoFault | OpenRaises | WriteRaises(length: nat) | RenameRaises | KilledAfter(length: nat)

  /** One directory: what its names lead to, what the writers' inodes hold, and their ages. */
  class Directory {
    var files: map<Path, Inode>
    var contents: map<Writer, Data>
    var modified: map<Inode, nat>
    ghost var phases: map<Writer, Phase>

    ghost function State(): World
      reads this
    {
      World(files, contents, phases)
    }

    /** Every name leads to an inode whose age is known. */
    ghost predicate Valid()
      reads this
    {
      forall p :: p in files ==> files[p] in modified
    }

    constructor ()
      ensures State() == World(map[], map[], map[]) && Valid()
    {
      files, contents, modified, phases := map[], map[], map[], map[];
    }

    /** The writing function creates the temporary and fills it, or stops part of the way. */
    method WriteTemporary(w: Writer, data: Data, length: nat, now: nat, ghost output: Writer -> Data)
      returns (ghost trace: seq<Action>)
      requires Valid() && w !in phases && output(w) == data && length <= |data|
      modifies this
      ensures Valid() && Follows(old(State()), trace, State(), output)
      ensures files == old(files)[Temporary(w) := Of(w)] && contents == old(contents)[w := data[..length]]
      ensures phases == old(phases)[w := Writing]
    {
      ghost var s := State();
      Extend(s, [], s, Open(w), output);
      files, contents := files[Temporary(w) := Of(w)], contents[w := []];
      modified, phases := modified[Of(w) := now], phases[w := Writing];
      assert State() == Step(s, Open(w), output);
      trace := [] + [Open(w)];
      Extend(s, trace, State(), WriteSome(w, length), output);
      contents := contents[w := data[..length]];
      trace := trace + [WriteSome(w, length)];
    }

    /** The temporary takes the destination's name in one step. */
    method Replace(w: Writer, ghost output: Writer -> Data, ghost s: World, ghost trace: seq<Action>)
      returns (ghost now: seq<Action>)
      requires Valid() && Follows(s, trace, State(), output)
      requires In(State(), w, Writing) && contents[w] == output(w) && Temporary(w) in files
      modifies this`files, this`phases
      ensures Valid() && Follows(s, now, State(), output)
      ensures files == (old(files) - {Temporary(w)})[Destination := old(files)[Temporary(w)]]
      ensures phases == old(phases)[w := Renamed]
    {
      Extend(s, trace, State(), FinishWriting(w), output);
      phases := phases[w := Written];
      now := trace + [FinishWriting(w)];
      Extend(s, now, State(), Rename(w), output);
      files, phases := (files - {Temporary(w)})[Destination := files[Temporary(w)]], phases[w := Renamed];
      now := now + [Rename(w)];
    }

    /** After a failure the temporary is removed, unless that fails as well. */
    method GiveUp(w: Writer, stuck: bool, ghost output: Writer -> Data, ghost s: World, ghost trace: seq<Action>)
      returns (ghost now: seq<Action>)
      requires Valid() && Follows(s, trace, State(), output) && In(State(), w, Writing)
      modifies this`files, this`phases
      ensures Valid() && Follows(s, now, State(), output)
      ensures files == if stuck then old(files) else old(files) - {Temporary(w)}
    {
      Extend(s, trace, State(), Raise(w), output);
      phases := phases[w := Failing];
      now := trace + [Raise(w)];
      Extend(s, now, State(), Cleanup(w, !stuck), output);
      if !stuck {
        files := files - {Temporary(w)};
      }
      phases := phases[w := Over];
      now := now + [Cleanup(w, !stuck)];
    }

    method Die(w: Writer, ghost output: Writer -> Data, ghost s: World, ghost trace: seq<Action>)
      returns (ghost now: seq<Action>)
      requires Valid() && Follows(s, trace, State(), output) && In(State(), w, Writing)
      modifies this`phases
      ensures Valid() && Follows(s, now, State(), output)
    {
      Extend(s, trace, State(), Kill(w), output);
      phases := phases[w := Over];
      now := trace + [Kill(w)];
    }

    /** A run of the machine above. The destination changes only to the complete output; a
        failed write leaves it alone, and its temporary too if the removal fails; a kill
        leaves the temporary behind. */
    method AtomicWrite(w: Writer, data: Data, now: nat, fault: Fault, stuck: bool, ghost output: Writer -> Data)
      returns (raised: bool, ghost trace: seq<Action>)
      requires Valid() && w !in phases && Temporary(w) !in files && output(w) == data
      requires fault.WriteRaises? || fault.KilledAfter? ==> fault.length <= |data|
      modifies this
      ensures Valid() && Follows(old(State()), trace, State(), output)
      ensures raised <==> fault.OpenRaises? || fault.WriteRaises? || fault.RenameRaises?
      ensures fault.NoFault? ==> files == old(files)[Destination := Of(w)] && contents == old(contents)[w := data]
      ensures !fault.NoFault? ==>
        && (forall v :: v in old(contents) && v != w ==> v in contents && contents[v] == old(contents)[v])
        && files == if fault.OpenRaises? || (raised && !stuck) then old(files) else old(files)[Temporary(w) := Of(w)]
    {
      ghost var s := State();
      if fault.OpenRaises? { return true, []; }
      var length := if fault.WriteRaises? || fault.KilledAfter? then fault.length else |data|;
      assert data[..|data|] == data;
      trace := WriteTemporary(w, data, length, now, output);
      raised := false;
      if fault.NoFault? {
        trace := Replace(w, output, s, trace);
      } else if fault.KilledAfter? {
        trace := Die(w, output, s, trace);
      } else {
        trace := GiveUp(w, stuck, output, s, trace);
        raised := true;
      }
    }

    /** Delete every temporary sibling that has reached the age, and nothing else. */
    method ReapOrphans(now: nat, age: nat, ghost output: Writer -> Data) returns (ghost trace: seq<Action>)
      requires Valid()
      modifies this`files
      ensures Valid() && Follows(old(State()), trace, State(), output)
      ensures files
        == old(map p | p in files && !(p.Temporary? && now - modified[files[p]] >= age) :: files[p])
    {
      var todo := set p | p in files && p.Temporary?;
      trace := [];
      while todo != {}
        invariant todo <= files.Keys && Valid() && Follows(old(State()), trace, State(), output)
        invariant forall p :: p in todo ==> p.Temporary?
        invariant files.Keys <= old(files.Keys) && forall p :: p in files ==> files[p] == old(files)[p]
        invariant forall p :: p in old(files) && (p.Destination? || p in todo || now - modified[old(files)[p]] < age) ==>
          p in files
        invariant forall p :: p in files && p.Temporary? && p !in todo ==> now - modified[files[p]] < age
        decreases todo
      {
        var p :| p in todo;
        todo := todo - {p};
        if now - modified[files[p]] >= age {
          Extend(old(State()), trace, State(), Reap(p.writer), output);
          files := files - {p};
          trace := trace + [Reap(p.writer)];
        }
      }
    }
  }
}
