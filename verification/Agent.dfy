/** The node agent's pull loop: a version it believes to hold and the configuration file it names. */
module Agent {
  import opened Wrappers
  import opened Nodes
  import opened ServerConfig

  datatype Reply =
    NoReply | Refused | Garbled | Unchanged(version: string) | Fresh(version: string, config: Option<Config>)

  /** Whether writing the temporary file and renaming it work; leftover is what a failed write leaves behind. */
  datatype Disk = Disk(write: bool, rename: bool, leftover: Option<Config>)

  datatype State = State(known: string, file: Option<Config>, temp: Option<Config>)

  /** The config endpoint: current is what the control plane renders now, none when it cannot. */
  function Serve(hash: Config -> string, known: string, current: Option<Config>): Reply {
    match current
    case None => Refused
    case Some(c) => if known != "" && known == hash(c) then Unchanged(hash(c)) else Fresh(hash(c), Some(c))
  }

  function Pulled(s: State, r: Reply, d: Disk): State {
    match r
    case Fresh(version, Some(c)) =>
      if !d.write then s.(temp := d.leftover)
      else if !d.rename then s.(temp := Some(c))
      else State(version, Some(c), None)
    case _ => s
  }

  /** A pull with what the control plane would render, whether the exchange works, and the disk; or a restart, which
      forgets the version but not the file. */
  datatype Event = Pull(current: Option<Config>, net: bool, disk: Disk) | Restart

  function Next(hash: Config -> string, s: State, e: Event): State {
    match e
    case Pull(current, net, disk) => Pulled(s, if net then Serve(hash, s.known, current) else NoReply, disk)
    case Restart => s.(known := "")
  }

  function Run(hash: Config -> string, s: State, es: seq<Event>): State {
    if es == [] then s else Next(hash, Run(hash, s, es[..|es| - 1]), es[|es| - 1])
  }

  /** The version is empty or names the file on disk. */
  predicate Honest(hash: Config -> string, s: State) {
    s.known == "" || (s.file.Some? && s.known == hash(s.file.value))
  }

  class Loop {
    var known: string
    var file: Option<Config>
    var temp: Option<Config>

    constructor (file: Option<Config>)
      ensures Present() == State("", file, None)
    {
      known, this.file, temp := "", file, None;
    }

    ghost function Present(): State
      reads this
    {
      State(known, file, temp)
    }

    /** writeAtomic: a temporary file, then a rename over the target. */
    method WriteAtomic(c: Config, d: Disk) returns (ok: bool)
      modifies this`file, this`temp
      ensures ok == (d.write && d.rename)
      ensures file == (if ok then Some(c) else old(file))
      ensures temp == if ok then None else if d.write then Some(c) else d.leftover
    {
      if !d.write {
        temp := d.leftover;
        return false;
      }
      temp := Some(c);
      if !d.rename { return false; }
      file, temp := temp, None;
      ok := true;
    }

    /** pullAndApply: the version follows the file, never the other way round. */
    method PullAndApply(r: Reply, d: Disk) returns (ok: bool)
      modifies this
      ensures Present() == Pulled(old(Present()), r, d)
      ensures ok <==> r.Unchanged? || (r.Fresh? && (r.config.None? || (d.write && d.rename)))
      ensures forall hash: Config -> string ::
                (Honest(hash, old(Present())) && (r.Fresh? && r.config.Some? ==> r.version == hash(r.config.value))) ==>
                  Honest(hash, Present())
    {
      if r.NoReply? || r.Refused? || r.Garbled? { return false; }
      if r.Unchanged? { return true; }
      if r.config.None? { return true; }
      var written := WriteAtomic(r.config.value, d);
      if !written { return false; }
      known := r.version;
      ok := true;
    }
  }

  // ----- every run -------------------------------------------------------------------------------

  /** Over every run of pulls with failing requests, writes and renames, of restarts, and of renderings that change
      in between, the version is empty or names exactly the file on disk. */
  lemma {:induction false} VersionNamesFile(hash: Config -> string, s: State, es: seq<Event>)
    requires Honest(hash, s)
    ensures Honest(hash, Run(hash, s, es))
  {
    if es != [] {
      VersionNamesFile(hash, s, es[..|es| - 1]);
    }
  }

  /** The version decides the configuration, and no version is empty. */
  ghost predicate CollisionFree(hash: Config -> string) {
    (forall c: Config, d: Config :: hash(c) == hash(d) ==> c == d) && forall c: Config :: hash(c) != ""
  }

  /** With collision-free versions an "unchanged" reply comes exactly when the disk holds the current rendering and
      the agent has not forgotten its version. */
  lemma {:induction false} UnchangedMeansCurrent(hash: Config -> string, file: Option<Config>, es: seq<Event>,
                                                 current: Config)
    requires CollisionFree(hash)
    ensures var s := Run(hash, State("", file, None), es);
            Serve(hash, s.known, Some(current)).Unchanged? <==> s.known != "" && s.file == Some(current)
  {
    VersionNamesFile(hash, State("", file, None), es);
  }

  /** After any run, one pull whose exchange and disk work leaves the current rendering on disk and its version
      known. */
  lemma {:induction false} PullReachesCurrent(hash: Config -> string, file: Option<Config>, es: seq<Event>,
                                              current: Config, d: Disk)
    requires CollisionFree(hash) && d.write && d.rename
    ensures var s := Next(hash, Run(hash, State("", file, None), es), Pull(Some(current), true, d));
            s.file == Some(current) && s.known == hash(current)
  {
    VersionNamesFile(hash, State("", file, None), es);
  }

  /** Without that, a good pull misses the current rendering exactly when its version is the one already known for
      another file. */
  lemma MissesIffCollision(hash: Config -> string, s: State, current: Config, d: Disk)
    requires Honest(hash, s) && d.write && d.rename
    ensures Next(hash, s, Pull(Some(current), true, d)).file != Some(current)
            <==> s.known != "" && s.known == hash(current) && s.file != Some(current)
  {
  }

  /** While node and subscribers stay the same, pulls after a good one are answered "unchanged" and touch nothing,
      in whatever order the database lists the subscribers. */
  lemma QuietWhileNothingChanges(hash: Config -> string, s: State, n: Node, singBox: bool, subs: seq<Subscriber>,
                                 others: seq<Subscriber>, current: Config, later: Option<Config>, d: Disk, e: Disk)
    requires CollisionFree(hash) && Honest(hash, s) && d.write && d.rename
    requires DistinctIds(subs) && multiset(subs) == multiset(others)
    requires Renders(n, singBox, subs, Some(current)) && Renders(n, singBox, others, later)
    ensures var t := Next(hash, s, Pull(Some(current), true, d));
            Serve(hash, t.known, later).Unchanged? && Next(hash, t, Pull(later, true, e)) == t
  {
    RenderIgnoresOrder(n, singBox, subs, others, Some(current), later);
  }
}
