/** Whole lifetimes of the disk engine: acknowledged writes, appends cut at any byte by a crash
    or a failing device, deaths at any stage of recovery, and restarts, in any order and number. */
module DiskRuns {
  import opened ByteStrings
  import opened KeyValue
  import opened Records
  import opened Recovery
  import opened DiskCompaction
  import opened DiskStore

  /** `acked` is the contents clients have been told of; `inFlight` the one mutation whose
      append was cut off, if that is how the process last went down. */
  datatype Disk = Disk(file: Bytes, up: bool, acked: Contents, inFlight: Option<Mutation>)

  datatype Step =
    | Acknowledge(op: Mutation)            // an append that completed
    | CutOff(op: Mutation, bytes: nat)     // crash or device failure after `bytes` bytes of its record
    | Kill                                 // crash between appends
    | DieRecovering(left: Bytes)           // crash during recovery, leaving the file as `left`
    | Restart(left: Bytes)                 // recovery that completed

  ghost predicate Enabled(d: Disk, step: Step) {
    match step
    case Acknowledge(op) => d.up && Storable(op) && (op.Remove? ==> op.key in d.acked)
    case CutOff(op, bytes) => d.up && Storable(op) && bytes <= |Encode(op)|
    case Kill => d.up
    case DieRecovering(left) => !d.up && (left == d.file || left == Healed(d.file) || RecoversTo(d.file, left))
    case Restart(left) => !d.up && RecoversTo(d.file, left)
  }

  ghost function Next(d: Disk, step: Step): Disk
    requires Enabled(d, step)
  {
    match step
    case Acknowledge(op) => d.(file := d.file + Encode(op), acked := Apply(d.acked, op))
    case CutOff(op, bytes) => d.(file := d.file + Encode(op)[..bytes], up := false, inFlight := Some(op))
    case Kill => d.(up := false)
    case DieRecovering(left) => d.(file := left)
    case Restart(left) => Disk(left, true, Recovered(left), None)
  }

  ghost predicate IsRun(d: Disk, steps: seq<Step>)
    decreases steps
  {
    steps == [] || (Enabled(d, steps[0]) && IsRun(Next(d, steps[0]), steps[1..]))
  }

  ghost function After(d: Disk, steps: seq<Step>): Disk
    requires IsRun(d, steps)
    decreases steps
  {
    if steps == [] then d else After(Next(d, steps[0]), steps[1..])
  }

  /** A data file of any origin, before the first start. */
  function Found(bytes: Bytes): Disk {
    Disk(bytes, false, Recovered(bytes), None)
  }

  /** While up, the file ends at a record boundary and holds what was acknowledged. While down,
      it holds that, or that and the one mutation in flight. */
  ghost predicate Inv(d: Disk) {
    if d.up then Clean(d.file) && Recovered(d.file) == d.acked && d.inFlight.None?
    else Recovered(d.file) == d.acked
         || (d.inFlight.Some? && Recovered(d.file) == Apply(d.acked, d.inFlight.value))
  }

  /** A cut append survives exactly when its last byte reached the file. */
  lemma CutOffSurvives(f: Bytes, op: Mutation, bytes: nat)
    requires Clean(f) && Storable(op) && bytes <= |Encode(op)|
    ensures Recovered(f + Encode(op)[..bytes]) ==
              if bytes == |Encode(op)| then Apply(Recovered(f), op) else Recovered(f)
  {
    hide Encode, IsRun;
    if bytes == |Encode(op)| {
      assert Encode(op)[..bytes] == Encode(op);
      Appended(f, op);
    } else {
      AppendTorn(f, op, bytes);
    }
  }

  lemma StepKeepsInv(d: Disk, step: Step)
    requires Inv(d) && Enabled(d, step)
    ensures Inv(Next(d, step))
  {
    hide Encode, Recovered, Clean, RecoversTo, Healed;
    match step
    case Acknowledge(op) => Appended(d.file, op);
    case CutOff(op, bytes) => CutOffSurvives(d.file, op, bytes);
    case Kill =>
    case DieRecovering(left) => RecoveringKeeps(d.file, left);
    case Restart(left) => RecoveryPreserves(d.file, left);
  }

  /** Whichever stage of recovery a crash hits, the file still holds the same contents. */
  lemma RecoveringKeeps(f: Bytes, g: Bytes)
    requires g == f || g == Healed(f) || RecoversTo(f, g)
    ensures Recovered(g) == Recovered(f)
  {
    hide RecoversTo;
    if g == Healed(f) {
      HealedFile(f);
    } else if g != f {
      RecoveryPreserves(f, g);
    }
  }

  /** A completed restart serves the acknowledged contents, or those and the single mutation in
      flight, and nothing else. */
  lemma RestartServes(d: Disk, left: Bytes)
    requires Inv(d) && Enabled(d, Restart(left))
    ensures var served := Next(d, Restart(left)).acked;
            served == d.acked || (d.inFlight.Some? && served == Apply(d.acked, d.inFlight.value))
  {
    hide RecoversTo, Recovered, Clean;
    RecoveryPreserves(d.file, left);
  }

  /** Multi-crash durability: the invariant holds along every run, from any file. */
  lemma {:induction false} Durable(d: Disk, steps: seq<Step>)
    requires Inv(d) && IsRun(d, steps)
    ensures Inv(After(d, steps))
    decreases steps
  {
    hide Inv, Enabled, Next;
    if steps != [] {
      StepKeepsInv(d, steps[0]);
      Durable(Next(d, steps[0]), steps[1..]);
    }
  }

  /** The contents that the steps of a run account for: every acknowledged mutation applied in
      order, every cut-off one either applied in its place or not at all. */
  ghost function Explained(m: Contents, steps: seq<Step>): iset<Contents>
    decreases steps
  {
    if steps == [] then iset{m}
    else match steps[0]
      case Acknowledge(op) => Explained(Apply(m, op), steps[1..])
      case CutOff(op, _) => Explained(m, steps[1..]) + Explained(Apply(m, op), steps[1..])
      case _ => Explained(m, steps[1..])
  }

  lemma StepExplained(d: Disk, step: Step)
    requires Inv(d) && Enabled(d, step)
    ensures var before, after := Recovered(d.file), Recovered(Next(d, step).file);
            match step
            case Acknowledge(op) => after == Apply(before, op)
            case CutOff(op, _) => after == before || after == Apply(before, op)
            case _ => after == before
  {
    hide Encode, Recovered, Clean, RecoversTo, Healed;
    match step
    case Acknowledge(op) => Appended(d.file, op);
    case CutOff(op, bytes) => CutOffSurvives(d.file, op, bytes);
    case Kill =>
    case DieRecovering(left) => RecoveringKeeps(d.file, left);
    case Restart(left) => RecoveryPreserves(d.file, left);
  }

  lemma {:induction false} RunExplained(d: Disk, steps: seq<Step>)
    requires Inv(d) && IsRun(d, steps)
    ensures Recovered(After(d, steps).file) in Explained(Recovered(d.file), steps)
    decreases steps
  {
    hide Inv, Enabled, Next, Recovered;
    if steps != [] {
      StepKeepsInv(d, steps[0]);
      StepExplained(d, steps[0]);
      RunExplained(Next(d, steps[0]), steps[1..]);
    }
  }

  /** From a file of any origin: at the end of every run the file holds contents that its
      acknowledged and cut-off mutations explain, and a running engine serves exactly those. */
  lemma EveryLifetime(bytes: Bytes, steps: seq<Step>)
    requires IsRun(Found(bytes), steps)
    ensures var d := After(Found(bytes), steps);
            && Recovered(d.file) in Explained(Recovered(bytes), steps)
            && (d.up ==> d.acked == Recovered(d.file))
  {
    hide IsRun, After, Recovered, Explained;
    Durable(Found(bytes), steps);
    RunExplained(Found(bytes), steps);
  }
}
