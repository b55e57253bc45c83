/**
 * The partition-and-reload fold of Manager.Update (pkg/rules/manager.go,
 * lines 237-316) as specification functions: every rule file is read and
 * parsed, its groups are bucketed by strategy, every bucket is written to
 * its own scratch file, and failures are collected instead of stopping the
 * fold. The outside world (file system, YAML codec, hashing, the engines'
 * loader) is an `Env` of deterministic outcomes.
 */
module Partition {
  import opened Wrappers
  import opened Strategies
  import opened RuleConfig
  import opened Engine

  type Bytes = seq<bv8>

  /** The collaborators Update calls, each as the outcome it reports. */
  datatype Env = Env(
    removeAll: Option<string>,                           // os.RemoveAll(workDir): nil or its error
    mkdirAll: Option<string>,                            // os.MkdirAll(workDir)
    readFile: Path -> Result<Bytes, string>,             // ioutil.ReadFile
    decode: Bytes -> Result<seq<RawGroup>, string>,      // YAML decoding of a document's `groups:` entries
    encode: seq<RuleGroupDef> -> Result<Bytes, string>,  // yaml.Marshal of a rulefmt.RuleGroups
    writeFile: (Path, Bytes) -> Option<string>,          // ioutil.WriteFile
    baseName: Path -> string,                            // filepath.Base
    sha256Hex: Path -> string,                           // "%x" of sha256.Sum256
    load: (Duration, seq<Path>) -> Result<seq<LiveGroup>, string>)  // what an engine's Update loads

  /** The errors Update reports, each wrapped as the source wraps it. */
  datatype UpdateError =
    | RemoveFailed(dir: Path, msg: string)
    | MkdirFailed(dir: Path, msg: string)
    | ReadFailed(file: Path, msg: string)
    | ParseFailed(file: Path, cause: DecodeError)
    | MarshalFailed(file: Path, msg: string)
    | WriteFailed(file: Path, msg: string)
    | NoManager(strategy: Strategy)
    | EngineFailed(strategy: Strategy, msg: string)
    | Multi(errors: seq<UpdateError>)

  /** tsdberrors.MultiError.Err(): nil for no errors, the whole list otherwise. */
  function Err(errs: seq<UpdateError>): (r: Option<UpdateError>)
    ensures r.None? <==> errs == []
    ensures r.Some? ==> r.value.Multi? && r.value.errors == errs
  {
    if errs == [] then None else Some(Multi(errs))
  }

  // ---------------------------------------------------------------- buckets

  /** The groups of one file with the given strategy, in file order (groupsByStrategy[s].Groups). */
  function Bucket(gs: seq<ConfigGroup>, s: Strategy): seq<RuleGroupDef> {
    if gs == [] then []
    else
      var last := gs[|gs| - 1];
      Bucket(gs[..|gs| - 1], s) + (if last.strategy == Some(s) then [last.group] else [])
  }

  /** The positions, within the file, of the groups in Bucket(gs, s). */
  function BucketPositions(gs: seq<ConfigGroup>, s: Strategy): seq<nat> {
    if gs == [] then []
    else
      var last := gs[|gs| - 1];
      BucketPositions(gs[..|gs| - 1], s) + (if last.strategy == Some(s) then [|gs| - 1] else [])
  }

  ghost predicate StrictlyIncreasing(ps: seq<nat>) {
    forall i, j :: 0 <= i < j < |ps| ==> ps[i] < ps[j]
  }

  /**
   * A bucket is exactly the file's groups of that strategy, in their
   * original order: its i-th group is the group at the i-th position
   * (BucketPositions), a position is listed iff its group has that
   * strategy (BucketPositionsMembers), and the positions increase
   * (BucketPositionsIncreasing). So every group lands in the bucket of its
   * own strategy and in no other, once.
   */
  lemma {:induction false} BucketExact(gs: seq<ConfigGroup>, s: Strategy)
    ensures |Bucket(gs, s)| == |BucketPositions(gs, s)|
    ensures forall i :: 0 <= i < |Bucket(gs, s)| ==>
      BucketPositions(gs, s)[i] < |gs| && Bucket(gs, s)[i] == gs[BucketPositions(gs, s)[i]].group
  {
    if gs != [] {
      var front := gs[..|gs| - 1];
      BucketExact(front, s);
      assert forall k :: 0 <= k < |front| ==> front[k] == gs[k];
    }
  }

  lemma {:induction false} BucketPositionsMembers(gs: seq<ConfigGroup>, s: Strategy)
    ensures forall k :: k in BucketPositions(gs, s) <==> 0 <= k < |gs| && gs[k].strategy == Some(s)
  {
    if gs != [] {
      var front := gs[..|gs| - 1];
      BucketPositionsMembers(front, s);
      assert forall k :: 0 <= k < |front| ==> front[k] == gs[k];
    }
  }

  lemma {:induction false} BucketPositionsIncreasing(gs: seq<ConfigGroup>, s: Strategy)
    ensures StrictlyIncreasing(BucketPositions(gs, s))
  {
    if gs != [] {
      var front := gs[..|gs| - 1];
      BucketPositionsIncreasing(front, s);
      BucketPositionsMembers(front, s);
      var ps := BucketPositions(front, s);
      assert forall i :: 0 <= i < |ps| ==> ps[i] in ps;
    }
  }

  /** Together the buckets hold as many groups as the file: none lost, none duplicated. */
  lemma {:induction false} BucketsCoverFile(gs: seq<ConfigGroup>)
    requires AllResolved(gs)
    ensures |Bucket(gs, WARN)| + |Bucket(gs, ABORT)| == |gs|
  {
    if gs != [] {
      var front := gs[..|gs| - 1];
      assert AllResolved(front) by {
        assert forall k :: 0 <= k < |front| ==> front[k] == gs[k];
      }
      BucketsCoverFile(front);
      assert gs[|gs| - 1].strategy.Some?;
      match gs[|gs| - 1].strategy.value
      case WARN =>
      case ABORT =>
    }
  }

  /** groupsByStrategy once the file's groups are bucketed: only strategies that occur are keys. */
  function BucketMap(gs: seq<ConfigGroup>): (m: map<Strategy, seq<RuleGroupDef>>)
    ensures forall s :: s in m <==> Bucket(gs, s) != []
    ensures forall s :: s in m ==> m[s] == Bucket(gs, s)
  {
    AllStrategiesComplete();
    map s | s in AllStrategies && Bucket(gs, s) != [] :: Bucket(gs, s)
  }

  /** One step of the bucketing loop: the group is appended to its strategy's bucket. */
  lemma BucketMapStep(gs: seq<ConfigGroup>, j: int)
    requires 0 <= j < |gs| && gs[j].strategy.Some?
    ensures BucketMap(gs[..j + 1]) ==
      BucketMap(gs[..j])[gs[j].strategy.value := MapGet(BucketMap(gs[..j]), gs[j].strategy.value, []) + [gs[j].group]]
  {
    assert gs[..j + 1][..j] == gs[..j];
    var s := gs[j].strategy.value;
    var m := BucketMap(gs[..j]);
    var m' := BucketMap(gs[..j + 1]);
    var u := m[s := MapGet(m, s, []) + [gs[j].group]];
    forall t ensures t in m' <==> t in u
                 ensures t in m' ==> m'[t] == u[t]
    {
      assert gs[..j + 1][j] == gs[j];
      assert Bucket(gs[..j + 1], t) == Bucket(gs[..j], t) + (if t == s then [gs[j].group] else []);
      assert MapGet(m, t, []) == Bucket(gs[..j], t);
    }
    assert m' == u;
  }

  // ---------------------------------------------------------- scratch files

  /** The directory and the name of a scratch file up to its strategy suffix. */
  function ScratchStem(workDir: Path, fn: Path, env: Env): string {
    workDir + "/" + env.baseName(fn) + "." + env.sha256Hex(fn)
  }

  /**
   * filepath.Join(workDir, name) for the scratch name
   * `<base of fn>.<hex SHA-256 of fn>.<strategy>` (line 287).
   */
  function ScratchPath(workDir: Path, fn: Path, s: Strategy, env: Env): Path {
    ScratchStem(workDir, fn, env) + "." + Name(s)
  }

  /** One file split across two strategies gets two distinct scratch files. */
  lemma ScratchPathsDistinctByStrategy(workDir: Path, fn: Path, s: Strategy, t: Strategy, env: Env)
    requires s != t
    ensures ScratchPath(workDir, fn, s, env) != ScratchPath(workDir, fn, t, env)
  {
    var prefix := workDir + "/" + env.baseName(fn) + "." + env.sha256Hex(fn) + ".";
    assert ScratchPath(workDir, fn, s, env) == prefix + Name(s);
    assert ScratchPath(workDir, fn, t, env) == prefix + Name(t);
    assert |Name(s)| != |Name(t)|;
  }

  /**
   * Scratch paths do not collide across files: when the hex digest is the
   * 64 characters SHA-256 gives and does not collide on the two paths, the
   * scratch path determines both the original path and the strategy.
   */
  lemma ScratchPathInjective(workDir: Path, f1: Path, s1: Strategy, f2: Path, s2: Strategy, env: Env)
    requires |env.sha256Hex(f1)| == 64 && |env.sha256Hex(f2)| == 64
    requires env.sha256Hex(f1) == env.sha256Hex(f2) ==> f1 == f2
    requires ScratchPath(workDir, f1, s1, env) == ScratchPath(workDir, f2, s2, env)
    ensures f1 == f2 && s1 == s2
  {
    var y1, y2 := ScratchStem(workDir, f1, env), ScratchStem(workDir, f2, env);
    NameSuffixDetermines(y1, s1, y2, s2);
    HexIsSuffix(workDir + "/" + env.baseName(f1) + ".", env.sha256Hex(f1));
    HexIsSuffix(workDir + "/" + env.baseName(f2) + ".", env.sha256Hex(f2));
  }

  /** A WARN scratch path is never an ABORT one: the separator of the one meets the 'A' of the other. */
  lemma WarnAbortDiffer(y: string, z: string)
    ensures y + "." + Name(WARN) != z + "." + Name(ABORT)
  {
    if |y| == |z| + 1 {
      assert (y + "." + Name(WARN))[|y|] == '.';
      assert (z + "." + Name(ABORT))[|y|] == 'A';
    }
  }

  lemma HexIsSuffix(x: string, h: string)
    ensures (x + h)[|x + h| - |h|..] == h
  {
  }

  /** The strategy name after the last separator determines both halves. */
  lemma NameSuffixDetermines(y1: string, s1: Strategy, y2: string, s2: Strategy)
    requires y1 + "." + Name(s1) == y2 + "." + Name(s2)
    ensures y1 == y2 && s1 == s2
  {
    var p := y1 + "." + Name(s1);
    assert p == y2 + "." + Name(s2);
    if s1 != s2 {
      if s1 == WARN {
        WarnAbortDiffer(y1, y2);
      } else {
        WarnAbortDiffer(y2, y1);
      }
      assert false;
    }
    assert y1 == p[..|y1|];
    assert y2 == p[..|y2|];
  }

  // ------------------------------------------------------------------ fold

  /** The accumulators of Update's file loop: errs, filesByStrategy and ruleFiles. */
  datatype FoldState = FoldState(
    errs: seq<UpdateError>, filesByStrategy: map<Strategy, seq<Path>>, ruleFiles: map<Path, Path>)

  const Init: FoldState := FoldState([], map[], map[])

  /** Marshal one bucket and write it to its scratch file (lines 281-294). */
  function WriteBucket(st: FoldState, workDir: Path, fn: Path, s: Strategy, bucket: seq<RuleGroupDef>, env: Env): FoldState {
    match env.encode(bucket)
    case Failure(e) => st.(errs := st.errs + [MarshalFailed(fn, e)])
    case Success(b) =>
      var newFn := ScratchPath(workDir, fn, s, env);
      match env.writeFile(newFn, b)
      case Some(e) => st.(errs := st.errs + [WriteFailed(newFn, e)])
      case None =>
        st.(filesByStrategy := st.filesByStrategy[s := MapGet(st.filesByStrategy, s, []) + [newFn]],
            ruleFiles := st.ruleFiles[newFn := fn])
  }

  /** The bucket loop of one file, visiting strategies in `order` (lines 280-295). */
  function WriteBuckets(st: FoldState, workDir: Path, fn: Path, buckets: map<Strategy, seq<RuleGroupDef>>,
                        order: seq<Strategy>, env: Env): FoldState
  {
    if order == [] then st
    else VisitBucket(WriteBuckets(st, workDir, fn, buckets, order[..|order| - 1], env), workDir, fn, buckets, order[|order| - 1], env)
  }

  /** One iteration of the bucket loop: write the bucket of s, if the file has one. */
  function VisitBucket(st: FoldState, workDir: Path, fn: Path, buckets: map<Strategy, seq<RuleGroupDef>>,
                       s: Strategy, env: Env): FoldState
  {
    if s in buckets then WriteBucket(st, workDir, fn, s, buckets[s], env) else st
  }

  /** The groups a file parses to, if reading and parsing succeed. */
  function FileGroups(fn: Path, env: Env): Result<seq<ConfigGroup>, UpdateError> {
    match env.readFile(fn)
    case Failure(e) => Failure(ReadFailed(fn, e))
    case Success(b) =>
      match ParseDocument(env.decode(b))
      case Failure(e) => Failure(ParseFailed(fn, e))
      case Success(gs) => Success(gs)
  }

  /** One iteration of the file loop (lines 253-295). */
  function FileStep(st: FoldState, workDir: Path, fn: Path, env: Env): FoldState {
    match FileGroups(fn, env)
    case Failure(e) => st.(errs := st.errs + [e])
    case Success(gs) => WriteBuckets(st, workDir, fn, BucketMap(gs), AllStrategies, env)
  }

  /** The file loop over `files`, from empty accumulators. */
  function Fold(workDir: Path, files: seq<Path>, env: Env): FoldState {
    if files == [] then Init
    else FileStep(Fold(workDir, files[..|files| - 1], env), workDir, files[|files| - 1], env)
  }

  // ------------------------------------------- what the fold adds per file

  /** The bucket of strategy s of file fn was marshalled and written. */
  predicate Written(workDir: Path, fn: Path, s: Strategy, env: Env) {
    && FileGroups(fn, env).Success?
    && BucketWritten(workDir, fn, s, Bucket(FileGroups(fn, env).value, s), env)
  }

  /** The bucket of strategy s of file fn is not empty, and it was marshalled and written. */
  predicate BucketWritten(workDir: Path, fn: Path, s: Strategy, bucket: seq<RuleGroupDef>, env: Env) {
    && bucket != []
    && env.encode(bucket).Success?
    && env.writeFile(ScratchPath(workDir, fn, s, env), env.encode(bucket).value).None?
  }

  /** The errors one bucket contributes. */
  function BucketErrors(workDir: Path, fn: Path, s: Strategy, bucket: seq<RuleGroupDef>, env: Env): seq<UpdateError> {
    if bucket == [] then []
    else
      match env.encode(bucket)
      case Failure(e) => [MarshalFailed(fn, e)]
      case Success(b) =>
        var newFn := ScratchPath(workDir, fn, s, env);
        match env.writeFile(newFn, b)
        case Some(e) => [WriteFailed(newFn, e)]
        case None => []
  }

  /** The errors one file contributes, which depend on that file alone. */
  function FileErrors(workDir: Path, fn: Path, env: Env): (r: seq<UpdateError>)
    ensures FileGroups(fn, env).Failure? ==> r == [FileGroups(fn, env).error]
  {
    match FileGroups(fn, env)
    case Failure(e) => [e]
    case Success(gs) =>
      BucketErrors(workDir, fn, WARN, Bucket(gs, WARN), env) + BucketErrors(workDir, fn, ABORT, Bucket(gs, ABORT), env)
  }

  function AllFileErrors(workDir: Path, files: seq<Path>, env: Env): seq<UpdateError> {
    if files == [] then []
    else AllFileErrors(workDir, files[..|files| - 1], env) + FileErrors(workDir, files[|files| - 1], env)
  }

  /** The scratch files written for strategy s, one per file that wrote one, in file order. */
  function WrittenFiles(workDir: Path, files: seq<Path>, s: Strategy, env: Env): seq<Path> {
    if files == [] then []
    else
      var fn := files[|files| - 1];
      WrittenFiles(workDir, files[..|files| - 1], s, env) +
        (if Written(workDir, fn, s, env) then [ScratchPath(workDir, fn, s, env)] else [])
  }

  /** p is a scratch path file fn wrote. */
  predicate WroteAt(workDir: Path, fn: Path, p: Path, env: Env) {
    || (Written(workDir, fn, WARN, env) && p == ScratchPath(workDir, fn, WARN, env))
    || (Written(workDir, fn, ABORT, env) && p == ScratchPath(workDir, fn, ABORT, env))
  }

  lemma WroteAtMeans(workDir: Path, fn: Path, p: Path, env: Env)
    ensures WroteAt(workDir, fn, p, env) <==> exists s :: Written(workDir, fn, s, env) && p == ScratchPath(workDir, fn, s, env)
  {
    if exists s :: Written(workDir, fn, s, env) && p == ScratchPath(workDir, fn, s, env) {
      var s :| Written(workDir, fn, s, env) && p == ScratchPath(workDir, fn, s, env);
      match s
      case WARN =>
      case ABORT =>
    }
  }

  /** p is the scratch path a file of `files` wrote for some strategy. */
  predicate WrittenBy(workDir: Path, files: seq<Path>, p: Path, env: Env) {
    && files != []
    && (WrittenBy(workDir, files[..|files| - 1], p, env) || WroteAt(workDir, files[|files| - 1], p, env))
  }

  lemma {:induction false} WrittenByMember(workDir: Path, files: seq<Path>, i: int, p: Path, env: Env)
    requires 0 <= i < |files| && WroteAt(workDir, files[i], p, env)
    ensures WrittenBy(workDir, files, p, env)
  {
    if i < |files| - 1 {
      var front := files[..|files| - 1];
      assert front[i] == files[i];
      WrittenByMember(workDir, front, i, p, env);
    }
  }

  // ------------------------------------------------ the fold, file by file

  /** filesByStrategy[s] = append(filesByStrategy[s], p), when `cond`. */
  function AppendIf(fbs: map<Strategy, seq<Path>>, s: Strategy, cond: bool, p: Path): map<Strategy, seq<Path>> {
    if cond then fbs[s := MapGet(fbs, s, []) + [p]] else fbs
  }

  /** ruleFiles[p] = fn, when `cond`. */
  function PutIf(rf: map<Path, Path>, cond: bool, p: Path, fn: Path): map<Path, Path> {
    if cond then rf[p := fn] else rf
  }

  /** The bucket loop of a parsed file visits WARN, then ABORT. */
  lemma FileStepUnfold(st: FoldState, workDir: Path, fn: Path, gs: seq<ConfigGroup>, env: Env)
    requires FileGroups(fn, env) == Success(gs)
    ensures FileStep(st, workDir, fn, env) ==
      VisitBucket(VisitBucket(st, workDir, fn, BucketMap(gs), WARN, env), workDir, fn, BucketMap(gs), ABORT, env)
  {
    var b := BucketMap(gs);
    assert [WARN][..0] == [];
    assert WriteBuckets(st, workDir, fn, b, [WARN], env) == VisitBucket(st, workDir, fn, b, WARN, env);
    assert AllStrategies[..1] == [WARN];
  }

  /** The errors of visiting strategy s in the bucket loop of file fn. */
  lemma BucketStepErrs(st: FoldState, workDir: Path, fn: Path, gs: seq<ConfigGroup>, s: Strategy, env: Env)
    ensures VisitBucket(st, workDir, fn, BucketMap(gs), s, env).errs ==
      st.errs + BucketErrors(workDir, fn, s, Bucket(gs, s), env)
  {
    var b := BucketMap(gs);
    if s in b {
      assert b[s] == Bucket(gs, s) && Bucket(gs, s) != [];
    } else {
      assert Bucket(gs, s) == [];
    }
  }

  /** The file lists and the index after visiting strategy s in the bucket loop of file fn. */
  lemma BucketStepEffect(st: FoldState, workDir: Path, fn: Path, gs: seq<ConfigGroup>, s: Strategy, env: Env)
    requires FileGroups(fn, env) == Success(gs)
    ensures var st' := VisitBucket(st, workDir, fn, BucketMap(gs), s, env);
      && st'.filesByStrategy == AppendIf(st.filesByStrategy, s, Written(workDir, fn, s, env), ScratchPath(workDir, fn, s, env))
      && st'.ruleFiles == PutIf(st.ruleFiles, Written(workDir, fn, s, env), ScratchPath(workDir, fn, s, env), fn)
  {
    assert Written(workDir, fn, s, env) == BucketWritten(workDir, fn, s, Bucket(gs, s), env);
    VisitBucketEffect(st, workDir, fn, BucketMap(gs), s, Bucket(gs, s), env);
  }

  lemma VisitBucketEffect(st: FoldState, workDir: Path, fn: Path, buckets: map<Strategy, seq<RuleGroupDef>>,
                          s: Strategy, bucket: seq<RuleGroupDef>, env: Env)
    requires s in buckets <==> bucket != []
    requires s in buckets ==> buckets[s] == bucket
    ensures var st' := VisitBucket(st, workDir, fn, buckets, s, env);
      var w := BucketWritten(workDir, fn, s, bucket, env);
      && st'.filesByStrategy == AppendIf(st.filesByStrategy, s, w, ScratchPath(workDir, fn, s, env))
      && st'.ruleFiles == PutIf(st.ruleFiles, w, ScratchPath(workDir, fn, s, env), fn)
  {
    if s in buckets {
      match env.encode(bucket)
      case Failure(e) =>
      case Success(bytes) =>
        match env.writeFile(ScratchPath(workDir, fn, s, env), bytes)
        case Some(e) =>
        case None =>
    }
  }

  lemma FileStepErrs(st: FoldState, workDir: Path, fn: Path, env: Env)
    ensures FileStep(st, workDir, fn, env).errs == st.errs + FileErrors(workDir, fn, env)
  {
    match FileGroups(fn, env)
    case Failure(e) =>
      assert FileErrors(workDir, fn, env) == [e];
      assert FileStep(st, workDir, fn, env) == st.(errs := st.errs + [e]);
    case Success(gs) =>
      var a := BucketErrors(workDir, fn, WARN, Bucket(gs, WARN), env);
      var c := BucketErrors(workDir, fn, ABORT, Bucket(gs, ABORT), env);
      var st1 := VisitBucket(st, workDir, fn, BucketMap(gs), WARN, env);
      var st2 := VisitBucket(st1, workDir, fn, BucketMap(gs), ABORT, env);
      assert FileStep(st, workDir, fn, env) == st2 by {
        FileStepUnfold(st, workDir, fn, gs, env);
      }
      assert st1.errs == st.errs + a by {
        BucketStepErrs(st, workDir, fn, gs, WARN, env);
      }
      assert st2.errs == st1.errs + c by {
        BucketStepErrs(st1, workDir, fn, gs, ABORT, env);
      }
      assert FileErrors(workDir, fn, env) == a + c;
      ConcatAssoc(st.errs, a, c);
  }

  lemma FileStepFiles(st: FoldState, workDir: Path, fn: Path, env: Env)
    ensures FileStep(st, workDir, fn, env).filesByStrategy ==
      AppendIf(AppendIf(st.filesByStrategy, WARN, Written(workDir, fn, WARN, env), ScratchPath(workDir, fn, WARN, env)),
               ABORT, Written(workDir, fn, ABORT, env), ScratchPath(workDir, fn, ABORT, env))
  {
    match FileGroups(fn, env)
    case Failure(e) =>
    case Success(gs) =>
      FileStepUnfold(st, workDir, fn, gs, env);
      BucketStepEffect(st, workDir, fn, gs, WARN, env);
      BucketStepEffect(VisitBucket(st, workDir, fn, BucketMap(gs), WARN, env), workDir, fn, gs, ABORT, env);
  }

  lemma FileStepIndex(st: FoldState, workDir: Path, fn: Path, env: Env)
    ensures FileStep(st, workDir, fn, env).ruleFiles ==
      PutIf(PutIf(st.ruleFiles, Written(workDir, fn, WARN, env), ScratchPath(workDir, fn, WARN, env), fn),
            Written(workDir, fn, ABORT, env), ScratchPath(workDir, fn, ABORT, env), fn)
  {
    match FileGroups(fn, env)
    case Failure(e) =>
    case Success(gs) =>
      FileStepUnfold(st, workDir, fn, gs, env);
      BucketStepEffect(st, workDir, fn, gs, WARN, env);
      BucketStepEffect(VisitBucket(st, workDir, fn, BucketMap(gs), WARN, env), workDir, fn, gs, ABORT, env);
  }

  /** The effect of one file on the accumulators, in closed form. */
  lemma FileStepEffect(st: FoldState, workDir: Path, fn: Path, env: Env)
    ensures FileStep(st, workDir, fn, env).errs == st.errs + FileErrors(workDir, fn, env)
    ensures FileStep(st, workDir, fn, env).filesByStrategy ==
      AppendIf(AppendIf(st.filesByStrategy, WARN, Written(workDir, fn, WARN, env), ScratchPath(workDir, fn, WARN, env)),
               ABORT, Written(workDir, fn, ABORT, env), ScratchPath(workDir, fn, ABORT, env))
    ensures FileStep(st, workDir, fn, env).ruleFiles ==
      PutIf(PutIf(st.ruleFiles, Written(workDir, fn, WARN, env), ScratchPath(workDir, fn, WARN, env), fn),
            Written(workDir, fn, ABORT, env), ScratchPath(workDir, fn, ABORT, env), fn)
  {
    FileStepErrs(st, workDir, fn, env);
    FileStepFiles(st, workDir, fn, env);
    FileStepIndex(st, workDir, fn, env);
  }

  /** Update's errors from the file loop are the files' own errors, file after file. */
  lemma {:induction false} FoldErrors(workDir: Path, files: seq<Path>, env: Env)
    ensures Fold(workDir, files, env).errs == AllFileErrors(workDir, files, env)
  {
    if files != [] {
      FoldErrors(workDir, files[..|files| - 1], env);
      FileStepEffect(Fold(workDir, files[..|files| - 1], env), workDir, files[|files| - 1], env);
    }
  }

  /**
   * filesByStrategy[s] lists, in file order, the scratch file of every file
   * whose s-bucket was written, and s is a key exactly when there is one.
   */
  lemma {:induction false} FoldFiles(workDir: Path, files: seq<Path>, env: Env, s: Strategy)
    ensures MapGet(Fold(workDir, files, env).filesByStrategy, s, []) == WrittenFiles(workDir, files, s, env)
    ensures s in Fold(workDir, files, env).filesByStrategy <==> WrittenFiles(workDir, files, s, env) != []
  {
    if files != [] {
      var front := files[..|files| - 1];
      FoldFiles(workDir, front, env, s);
      FileStepEffect(Fold(workDir, front, env), workDir, files[|files| - 1], env);
    }
  }

  /** ruleFiles holds exactly the scratch paths some file of `files` wrote. */
  lemma {:induction false} FoldIndexKeys(workDir: Path, files: seq<Path>, env: Env)
    ensures forall p :: p in Fold(workDir, files, env).ruleFiles <==> WrittenBy(workDir, files, p, env)
  {
    if files != [] {
      var front := files[..|files| - 1];
      FoldIndexKeys(workDir, front, env);
      FileStepEffect(Fold(workDir, front, env), workDir, files[|files| - 1], env);
    }
  }

  /** ruleFiles maps every scratch path to a file of `files` that wrote it. */
  lemma {:induction false} FoldIndexValues(workDir: Path, files: seq<Path>, env: Env)
    ensures forall p :: p in Fold(workDir, files, env).ruleFiles ==>
      Fold(workDir, files, env).ruleFiles[p] in files &&
      WroteAt(workDir, Fold(workDir, files, env).ruleFiles[p], p, env)
  {
    if files != [] {
      var front := files[..|files| - 1];
      FoldIndexValues(workDir, front, env);
      FileStepEffect(Fold(workDir, front, env), workDir, files[|files| - 1], env);
      assert forall f :: f in front ==> f in files;
    }
  }

  /**
   * With a 64-character digest that does not collide on `files`, every
   * written scratch path is indexed, and indexed to the file that wrote it.
   */
  lemma IndexNamesOriginal(workDir: Path, files: seq<Path>, env: Env, i: int, s: Strategy)
    requires forall f :: f in files ==> |env.sha256Hex(f)| == 64
    requires forall f, g :: f in files && g in files && env.sha256Hex(f) == env.sha256Hex(g) ==> f == g
    requires 0 <= i < |files| && Written(workDir, files[i], s, env)
    ensures ScratchPath(workDir, files[i], s, env) in Fold(workDir, files, env).ruleFiles
    ensures Fold(workDir, files, env).ruleFiles[ScratchPath(workDir, files[i], s, env)] == files[i]
  {
    FoldIndexKeys(workDir, files, env);
    FoldIndexValues(workDir, files, env);
    var p := ScratchPath(workDir, files[i], s, env);
    WroteAtMeans(workDir, files[i], p, env);
    WrittenByMember(workDir, files, i, p, env);
    var fn := Fold(workDir, files, env).ruleFiles[p];
    WroteAtMeans(workDir, fn, p, env);
    var t :| Written(workDir, fn, t, env) && p == ScratchPath(workDir, fn, t, env);
    ScratchPathInjective(workDir, fn, t, files[i], s, env);
  }

  // --------------------------------------------------------------- engines

  /** The engine map and the errors of Update's strategy loop (lines 298-311). */
  datatype EngineOutcome = EngineOutcome(mgrs: map<Strategy, EngineState>, errs: seq<UpdateError>)

  /** Reconfigure the engine of s with its file list, if s has files this cycle. */
  function EngineStep(out: EngineOutcome, s: Strategy, fbs: map<Strategy, seq<Path>>,
                      interval: Duration, env: Env): EngineOutcome
  {
    if s !in fbs then out
    else if s !in out.mgrs then out.(errs := out.errs + [NoManager(s)])
    else
      match env.load(interval, fbs[s])
      case Failure(e) => out.(errs := out.errs + [EngineFailed(s, e)])
      case Success(groups) => out.(mgrs := out.mgrs[s := EngineState(interval, fbs[s], groups)])
  }

  function ApplyEngines(mgrs: map<Strategy, EngineState>, fbs: map<Strategy, seq<Path>>,
                        interval: Duration, env: Env, order: seq<Strategy>): EngineOutcome
  {
    if order == [] then EngineOutcome(mgrs, [])
    else EngineStep(ApplyEngines(mgrs, fbs, interval, env, order[..|order| - 1]), order[|order| - 1], fbs, interval, env)
  }

  /** What the strategy loop reports for s. */
  function EngineErrors(mgrs: map<Strategy, EngineState>, fbs: map<Strategy, seq<Path>>,
                        interval: Duration, env: Env, s: Strategy): seq<UpdateError>
  {
    if s !in fbs then []
    else if s !in mgrs then [NoManager(s)]
    else if env.load(interval, fbs[s]).Failure? then [EngineFailed(s, env.load(interval, fbs[s]).error)]
    else []
  }

  /** The strategy loop visits WARN, then ABORT. */
  lemma EnginesUnfold(mgrs: map<Strategy, EngineState>, fbs: map<Strategy, seq<Path>>, interval: Duration, env: Env)
    ensures ApplyEngines(mgrs, fbs, interval, env, AllStrategies) ==
      EngineStep(EngineStep(EngineOutcome(mgrs, []), WARN, fbs, interval, env), ABORT, fbs, interval, env)
  {
    assert [WARN][..0] == [];
    assert ApplyEngines(mgrs, fbs, interval, env, [WARN]) == EngineStep(EngineOutcome(mgrs, []), WARN, fbs, interval, env);
    assert AllStrategies[..1] == [WARN];
  }

  /** One iteration of the strategy loop touches s's engine only, and reports what EngineErrors says. */
  lemma EngineStepEffect(out: EngineOutcome, s: Strategy, fbs: map<Strategy, seq<Path>>, interval: Duration, env: Env)
    ensures EngineStep(out, s, fbs, interval, env).mgrs.Keys == out.mgrs.Keys
    ensures forall t :: t in out.mgrs ==>
      EngineStep(out, s, fbs, interval, env).mgrs[t] ==
        if t == s && s in fbs && env.load(interval, fbs[s]).Success?
        then EngineState(interval, fbs[s], env.load(interval, fbs[s]).value)
        else out.mgrs[t]
    ensures EngineStep(out, s, fbs, interval, env).errs == out.errs + EngineErrors(out.mgrs, fbs, interval, env, s)
  {
  }

  /**
   * The strategy loop touches only the engines of strategies that have
   * files: each such engine is handed exactly its strategy's file list and
   * runs what it loaded, or keeps its state when loading fails; a strategy
   * without an engine is reported; no engine is added or removed.
   */
  lemma EnginesEffect(mgrs: map<Strategy, EngineState>, fbs: map<Strategy, seq<Path>>, interval: Duration, env: Env)
    ensures ApplyEngines(mgrs, fbs, interval, env, AllStrategies).mgrs.Keys == mgrs.Keys
    ensures forall s :: s in mgrs ==>
      ApplyEngines(mgrs, fbs, interval, env, AllStrategies).mgrs[s] ==
        if s in fbs && env.load(interval, fbs[s]).Success?
        then EngineState(interval, fbs[s], env.load(interval, fbs[s]).value)
        else mgrs[s]
    ensures ApplyEngines(mgrs, fbs, interval, env, AllStrategies).errs ==
      EngineErrors(mgrs, fbs, interval, env, WARN) + EngineErrors(mgrs, fbs, interval, env, ABORT)
  {
    EnginesUnfold(mgrs, fbs, interval, env);
    var o0 := EngineOutcome(mgrs, []);
    var o1 := EngineStep(o0, WARN, fbs, interval, env);
    EngineStepEffect(o0, WARN, fbs, interval, env);
    EngineStepEffect(o1, ABORT, fbs, interval, env);
    assert EngineErrors(o1.mgrs, fbs, interval, env, ABORT) == EngineErrors(mgrs, fbs, interval, env, ABORT);
    assert o1.errs == EngineErrors(mgrs, fbs, interval, env, WARN);
  }

  /** A "no manager found" error is reported for s exactly when s has files and no engine. */
  lemma NoManagerReported(mgrs: map<Strategy, EngineState>, fbs: map<Strategy, seq<Path>>, interval: Duration, env: Env, s: Strategy)
    ensures NoManager(s) in ApplyEngines(mgrs, fbs, interval, env, AllStrategies).errs <==> s in fbs && s !in mgrs
  {
    EnginesEffect(mgrs, fbs, interval, env);
  }
}
