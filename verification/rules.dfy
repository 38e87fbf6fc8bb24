/** An independent, declarative statement of what `validate()` enforces: each
    check judged on its own, the checks listed in source order, and the outcome
    decided by the first check that fails. */
module ValidationRules {
  import opened Wrappers
  import opened JavaStrings
  import opened DurationPattern
  import opened BlobStoreConfig

  const LocationChecks: seq<Check> := [ProviderSet, BucketSet, AwsRegionOrEndpoint, EndpointSet]
  const FormatAndPartitionerChecks: seq<Check> := [FormatTypeKnown, PartitionerTypeKnown]
  const TimePartitioningChecks: seq<Check> := [TimePartitionPatternUsable, TimePartitionDurationValid]
  const BatchingChecks: seq<Check> := [BatchSizePositive, BatchTimePositive]
  const PathPrefixChecks: seq<Check> := [PathPrefixNoLeadingSlash, PathPrefixTrailingSlash]

  /** All checks, in the order `validate()` performs them. */
  const SourceOrder: seq<Check> :=
    LocationChecks + FormatAndPartitionerChecks + TimePartitioningChecks + BatchingChecks + PathPrefixChecks

  /** Position of a check in source order. */
  function Position(k: Check): (i: nat)
    ensures i < |SourceOrder| && SourceOrder[i] == k
  {
    match k
    case ProviderSet => 0
    case BucketSet => 1
    case AwsRegionOrEndpoint => 2
    case EndpointSet => 3
    case FormatTypeKnown => 4
    case PartitionerTypeKnown => 5
    case TimePartitionPatternUsable => 6
    case TimePartitionDurationValid => 7
    case BatchSizePositive => 8
    case BatchTimePositive => 9
    case PathPrefixNoLeadingSlash => 10
    case PathPrefixTrailingSlash => 11
  }

  predicate IsAwsProvider(p: string) {
    EqualsIgnoreCase(p, ProviderAwsS3)
  }

  /** The format is one the registry knows, compared ignoring case. */
  predicate IsKnownFormat(f: Option<string>) {
    f.Some? && exists key :: key in FormatKeys && EqualsIgnoreCase(f.value, key)
  }

  /** The options the partitioner type may take, compared ignoring case. */
  predicate IsKnownPartitioner(p: string) {
    EqualsIgnoreCase(p, "partition") || EqualsIgnoreCase(p, "time") || EqualsIgnoreCase(p, "default")
  }

  predicate IsTimePartitioner(c: Config) {
    c.partitionerType.Some? && EqualsIgnoreCase(c.partitionerType.value, "time")
  }

  /** What check `k` says about `c` when it is reached: `None` when it passes
      (or does not apply), otherwise the exception it throws. */
  function Verdict(c: Config, probe: string -> ProbeOutcome, k: Check): Option<ErrorKind> {
    match k
    case ProviderSet =>
      if c.provider.None? then Some(NullPointer) else None
    case BucketSet =>
      if c.bucket.None? then Some(NullPointer) else None
    case AwsRegionOrEndpoint =>
      if c.provider.Some? && IsAwsProvider(c.provider.value) && IsBlank(c.region) && IsBlank(c.endpoint)
      then Some(IllegalArgument) else None
    case EndpointSet =>
      if c.provider.Some? && !IsAwsProvider(c.provider.value) && c.endpoint.None?
      then Some(NullPointer) else None
    case FormatTypeKnown =>
      if IsKnownFormat(c.formatType) then None else Some(IllegalArgument)
    case PartitionerTypeKnown =>
      if c.partitionerType.None? then Some(NullPointer)
      else if IsKnownPartitioner(c.partitionerType.value) then None
      else Some(IllegalArgument)
    case TimePartitionPatternUsable =>
      if IsTimePartitioner(c) && IsNotBlank(c.timePartitionPattern) then
        match probe(c.timePartitionPattern.value)
        case PatternOk => None
        case PatternRefused => Some(IllegalArgument)
        case FormattingFailed => Some(DateTime)
      else None
    case TimePartitionDurationValid =>
      if IsTimePartitioner(c) && IsNotBlank(c.timePartitionDuration)
         && !MatchesDuration(c.timePartitionDuration.value)
      then Some(IllegalArgument) else None
    case BatchSizePositive =>
      if c.batchSize <= 0 then Some(IllegalArgument) else None
    case BatchTimePositive =>
      if c.batchTimeMs <= 0 then Some(IllegalArgument) else None
    case PathPrefixNoLeadingSlash =>
      if IsNotBlank(c.pathPrefix) && c.pathPrefix.value[0] == '/'
      then Some(IllegalArgument) else None
    case PathPrefixTrailingSlash =>
      if IsNotBlank(c.pathPrefix) && c.pathPrefix.value[|c.pathPrefix.value| - 1] != '/'
      then Some(IllegalArgument) else None
  }

  predicate Passes(c: Config, probe: string -> ProbeOutcome, k: Check) {
    Verdict(c, probe, k).None?
  }

  /** The first check of `ks` that fails, with its exception. */
  function FirstFailure(c: Config, probe: string -> ProbeOutcome, ks: seq<Check>): (r: Option<Rejection>)
    ensures r.Some? ==> r.value.check in ks && Verdict(c, probe, r.value.check) == Some(r.value.kind)
  {
    if ks == [] then None
    else match Verdict(c, probe, ks[0])
      case Some(kind) => Some(Rejection(ks[0], kind))
      case None => FirstFailure(c, probe, ks[1..])
  }

  function AsResult(f: Option<Rejection>): Result<(), Rejection> {
    match f
    case None => Ok(())
    case Some(r) => Err(r)
  }

  /** Every check strictly before `k` in source order passes. */
  predicate PassesBefore(c: Config, probe: string -> ProbeOutcome, k: Check) {
    forall j :: 0 <= j < Position(k) ==> Passes(c, probe, SourceOrder[j])
  }

  /** Validation stops at check `k`. */
  predicate FailsAt(c: Config, probe: string -> ProbeOutcome, k: Check) {
    Validate(c, probe).Err? && Validate(c, probe).error.check == k
  }

  lemma {:induction false} FirstFailureNoneIff(c: Config, probe: string -> ProbeOutcome, ks: seq<Check>)
    ensures FirstFailure(c, probe, ks).None? <==> forall i :: 0 <= i < |ks| ==> Passes(c, probe, ks[i])
  {
    if ks != [] {
      FirstFailureNoneIff(c, probe, ks[1..]);
      assert forall i :: 1 <= i < |ks| ==> ks[i] == ks[1..][i - 1];
    }
  }

  /** The first failure is a failing check with its own exception, and every
      check before it passes. */
  lemma {:induction false} FirstFailureSomeIff(c: Config, probe: string -> ProbeOutcome, ks: seq<Check>, i: nat, kind: ErrorKind)
    requires i < |ks|
    requires forall a, b :: 0 <= a < b < |ks| ==> ks[a] != ks[b]
    ensures FirstFailure(c, probe, ks) == Some(Rejection(ks[i], kind))
        <==> (forall j :: 0 <= j < i ==> Passes(c, probe, ks[j])) && Verdict(c, probe, ks[i]) == Some(kind)
  {
    if i > 0 {
      var rest := ks[1..];
      assert forall a, b :: 0 <= a < b < |rest| ==> rest[a] == ks[a + 1] && rest[b] == ks[b + 1];
      FirstFailureSomeIff(c, probe, rest, i - 1, kind);
      assert ks[i] == rest[i - 1];
      if Verdict(c, probe, ks[0]).Some? {
        assert ks[0] != ks[i];
        assert !Passes(c, probe, ks[0]);
      } else {
        assert FirstFailure(c, probe, ks) == FirstFailure(c, probe, rest);
        assert forall j :: 0 < j < i ==> ks[j] == rest[j - 1];
        assert (forall j :: 0 <= j < i ==> Passes(c, probe, ks[j]))
           <==> (forall j :: 0 <= j < i - 1 ==> Passes(c, probe, rest[j]));
      }
    }
  }

  lemma FormatKnownIff(f: Option<string>)
    ensures IsKnownFormat(f) <==> LowerCaseOrNull(f).Some? && LowerCaseOrNull(f).value in FormatKeys
  {
    if f.Some? {
      var s := f.value;
      forall key | key in FormatKeys
        ensures EqualsIgnoreCase(s, key) <==> LowerCase(s) == key
      {
        EqualsIgnoreCaseLowerKey(s, key);
      }
      if LowerCase(s) in FormatKeys {
        assert EqualsIgnoreCase(s, LowerCase(s));
      }
    }
  }

  lemma PartitionerKnownIff(p: string)
    ensures IsKnownPartitioner(p)
        <==> PartitionerEnumIgnoreCase(Some(p)).Some? || EqualsIgnoreCase(p, DefaultPartitionerAlias)
  {
    EqualsIgnoreCaseIff(p, "partition");
    EqualsIgnoreCaseIff("PARTITION", p);
    EqualsIgnoreCaseIff(p, "time");
    EqualsIgnoreCaseIff("TIME", p);
    assert LowerCase("PARTITION") == "partition";
    assert LowerCase("TIME") == "time";
  }

  lemma TimeNameIff(c: Config)
    ensures IsTimePartitioner(c)
        <==> c.partitionerType.Some? && EqualsIgnoreCase(TimePartitionerName, c.partitionerType.value)
  {
    if c.partitionerType.Some? {
      EqualsIgnoreCaseIff(c.partitionerType.value, "time");
      EqualsIgnoreCaseIff("TIME", c.partitionerType.value);
      assert LowerCase("TIME") == "time";
    }
  }

  lemma PrefixShapeIff(p: string)
    requires |p| > 0
    ensures StartsWith(p, "/") <==> p[0] == '/'
    ensures EndsWith(p, "/") <==> p[|p| - 1] == '/'
  {
    assert StartsWith(p, "/") ==> p[..1][0] == '/';
    assert EndsWith(p, "/") ==> p[|p| - 1..][0] == '/';
    if p[0] == '/' {
      assert p[..1] == "/";
    }
    if p[|p| - 1] == '/' {
      assert p[|p| - 1..] == "/";
    }
  }

  /** Failing in a concatenation is failing in the first part, or passing all of
      it and failing in the second. */
  lemma {:induction false} FirstFailureAppend(c: Config, probe: string -> ProbeOutcome, xs: seq<Check>, ys: seq<Check>)
    ensures FirstFailure(c, probe, xs + ys)
         == if FirstFailure(c, probe, xs).Some? then FirstFailure(c, probe, xs) else FirstFailure(c, probe, ys)
  {
    if xs != [] {
      assert (xs + ys)[0] == xs[0];
      assert (xs + ys)[1..] == xs[1..] + ys;
      FirstFailureAppend(c, probe, xs[1..], ys);
    } else {
      assert xs + ys == ys;
    }
  }

  lemma LocationIsFirstFailure(c: Config, probe: string -> ProbeOutcome)
    ensures CheckLocation(c) == AsResult(FirstFailure(c, probe, LocationChecks))
  {
    var ks := LocationChecks;
    assert ks[1..] == [BucketSet, AwsRegionOrEndpoint, EndpointSet];
    assert ks[1..][1..] == [AwsRegionOrEndpoint, EndpointSet];
    assert FirstFailure(c, probe, [AwsRegionOrEndpoint, EndpointSet])
        == if Verdict(c, probe, AwsRegionOrEndpoint).Some? then Some(Rejection(AwsRegionOrEndpoint, IllegalArgument))
           else if Verdict(c, probe, EndpointSet).Some? then Some(Rejection(EndpointSet, NullPointer))
           else None;
  }

  lemma FormatAndPartitionerIsFirstFailure(c: Config, probe: string -> ProbeOutcome)
    ensures CheckFormatAndPartitioner(c) == AsResult(FirstFailure(c, probe, FormatAndPartitionerChecks))
  {
    FormatKnownIff(c.formatType);
    if c.partitionerType.Some? {
      PartitionerKnownIff(c.partitionerType.value);
    }
    var ks := FormatAndPartitionerChecks;
    assert ks[1..][1..] == [];
  }

  lemma TimePartitioningIsFirstFailure(c: Config, probe: string -> ProbeOutcome)
    ensures CheckTimePartitioning(c, probe) == AsResult(FirstFailure(c, probe, TimePartitioningChecks))
  {
    TimeNameIff(c);
    if c.timePartitionDuration.Some? {
      PatternMatchesIff(c.timePartitionDuration.value);
    }
    var ks := TimePartitioningChecks;
    assert ks[1..][1..] == [];
  }

  lemma BatchingIsFirstFailure(c: Config, probe: string -> ProbeOutcome)
    ensures CheckBatching(c) == AsResult(FirstFailure(c, probe, BatchingChecks))
  {
    var ks := BatchingChecks;
    assert ks[1..][1..] == [];
  }

  lemma PathPrefixIsFirstFailure(c: Config, probe: string -> ProbeOutcome)
    ensures CheckPathPrefix(c) == AsResult(FirstFailure(c, probe, PathPrefixChecks))
  {
    if IsNotBlank(c.pathPrefix) {
      PrefixShapeIff(c.pathPrefix.value);
    }
    var ks := PathPrefixChecks;
    assert ks[1..][1..] == [];
  }

  /** `validate()` rejects with exactly the first failing check of the source
      order and accepts when there is none. */
  lemma ValidateIsFirstFailure(c: Config, probe: string -> ProbeOutcome)
    ensures Validate(c, probe) == AsResult(FirstFailure(c, probe, SourceOrder))
  {
    LocationIsFirstFailure(c, probe);
    FormatAndPartitionerIsFirstFailure(c, probe);
    TimePartitioningIsFirstFailure(c, probe);
    BatchingIsFirstFailure(c, probe);
    PathPrefixIsFirstFailure(c, probe);
    var a := LocationChecks;
    var b := FormatAndPartitionerChecks;
    var t := TimePartitioningChecks;
    var d := BatchingChecks;
    var e := PathPrefixChecks;
    FirstFailureAppend(c, probe, a, b);
    FirstFailureAppend(c, probe, a + b, t);
    FirstFailureAppend(c, probe, a + b + t, d);
    FirstFailureAppend(c, probe, a + b + t + d, e);
  }

  lemma SourceOrderListsEveryCheckOnce()
    ensures forall k: Check :: k in SourceOrder
    ensures forall a, b :: 0 <= a < b < |SourceOrder| ==> SourceOrder[a] != SourceOrder[b]
  {
    assert SourceOrder == [
      ProviderSet, BucketSet, AwsRegionOrEndpoint, EndpointSet, FormatTypeKnown,
      PartitionerTypeKnown, TimePartitionPatternUsable, TimePartitionDurationValid,
      BatchSizePositive, BatchTimePositive, PathPrefixNoLeadingSlash, PathPrefixTrailingSlash];
    forall k: Check
      ensures k in SourceOrder
    {
      assert SourceOrder[Position(k)] == k;
    }
  }

  /** Validation succeeds if and only if every check passes. */
  lemma AcceptedIffAllPass(c: Config, probe: string -> ProbeOutcome)
    ensures Validate(c, probe).Ok? <==> forall k: Check :: Passes(c, probe, k)
  {
    ValidateIsFirstFailure(c, probe);
    FirstFailureNoneIff(c, probe, SourceOrder);
    SourceOrderListsEveryCheckOnce();
    if forall i :: 0 <= i < |SourceOrder| ==> Passes(c, probe, SourceOrder[i]) {
      forall k: Check
        ensures Passes(c, probe, k)
      {
        assert SourceOrder[Position(k)] == k;
      }
    }
  }

  /** Validation rejects at check `k` with exception `kind` if and only if every
      earlier check passes and `k` throws `kind`. */
  lemma RejectedAtFirstFailure(c: Config, probe: string -> ProbeOutcome, k: Check, kind: ErrorKind)
    ensures Validate(c, probe) == Err(Rejection(k, kind))
        <==> PassesBefore(c, probe, k) && Verdict(c, probe, k) == Some(kind)
  {
    ValidateIsFirstFailure(c, probe);
    SourceOrderListsEveryCheckOnce();
    FirstFailureSomeIff(c, probe, SourceOrder, Position(k), kind);
  }

  /** Validation stops at check `k` exactly when every earlier check passes and
      `k` fails; the exception is the one `k` throws. */
  lemma FailsAtIff(c: Config, probe: string -> ProbeOutcome, k: Check)
    ensures FailsAt(c, probe, k) <==> PassesBefore(c, probe, k) && !Passes(c, probe, k)
    ensures FailsAt(c, probe, k) ==> Verdict(c, probe, k) == Some(Validate(c, probe).error.kind)
  {
    if FailsAt(c, probe, k) {
      RejectedAtFirstFailure(c, probe, k, Validate(c, probe).error.kind);
    }
    if PassesBefore(c, probe, k) && !Passes(c, probe, k) {
      RejectedAtFirstFailure(c, probe, k, Verdict(c, probe, k).value);
    }
  }
}
