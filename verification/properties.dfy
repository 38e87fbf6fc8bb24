/** The individual rules of `validate()`, each stated in the user's terms: what
    a field must look like for validation to get past the check that reads it. */
module ValidationProperties {
  import opened Wrappers
  import opened JavaStrings
  import opened DurationPattern
  import opened BlobStoreConfig
  import opened ValidationRules

  /** A missing provider or bucket is a null-pointer rejection, and the provider
      is looked at first. A freshly constructed config is rejected this way. */
  lemma ProviderCheckedBeforeBucket(c: Config, probe: string -> ProbeOutcome)
    ensures c.provider.None? ==> Validate(c, probe) == Err(Rejection(ProviderSet, NullPointer))
    ensures c.provider.Some? && c.bucket.None? ==> Validate(c, probe) == Err(Rejection(BucketSet, NullPointer))
    ensures Validate(Defaults, probe) == Err(Rejection(ProviderSet, NullPointer))
  {
    RejectedAtFirstFailure(c, probe, ProviderSet, NullPointer);
    RejectedAtFirstFailure(c, probe, BucketSet, NullPointer);
    RejectedAtFirstFailure(Defaults, probe, ProviderSet, NullPointer);
  }

  /** For an S3 provider (any case) validation gets past the location checks
      exactly when the region or the endpoint is not blank. */
  lemma AwsProviderNeedsRegionOrEndpoint(c: Config, probe: string -> ProbeOutcome)
    requires c.provider.Some? && c.bucket.Some?
    requires EqualsIgnoreCase(c.provider.value, "aws-s3")
    ensures FailsAt(c, probe, AwsRegionOrEndpoint) <==> IsBlank(c.region) && IsBlank(c.endpoint)
    ensures FailsAt(c, probe, AwsRegionOrEndpoint) ==> Validate(c, probe).error.kind == IllegalArgument
    ensures !FailsAt(c, probe, EndpointSet)
  {
    FailsAtIff(c, probe, AwsRegionOrEndpoint);
    FailsAtIff(c, probe, EndpointSet);
  }

  /** For any other provider only a null endpoint is refused, with a
      null-pointer rejection; a blank endpoint gets through. */
  lemma OtherProviderNeedsEndpoint(c: Config, probe: string -> ProbeOutcome)
    requires c.provider.Some? && c.bucket.Some?
    requires !EqualsIgnoreCase(c.provider.value, "aws-s3")
    ensures FailsAt(c, probe, EndpointSet) <==> c.endpoint.None?
    ensures FailsAt(c, probe, EndpointSet) ==> Validate(c, probe).error.kind == NullPointer
    ensures !FailsAt(c, probe, AwsRegionOrEndpoint)
  {
    FailsAtIff(c, probe, AwsRegionOrEndpoint);
    FailsAtIff(c, probe, EndpointSet);
  }

  /** Once the location is settled, the format type is accepted exactly when its
      lower-case form is a registry key; an absent one is an argument error. */
  lemma FormatTypeRule(c: Config, probe: string -> ProbeOutcome)
    requires PassesBefore(c, probe, FormatTypeKnown)
    ensures FailsAt(c, probe, FormatTypeKnown)
        <==> !(c.formatType.Some? && LowerCase(c.formatType.value) in {"avro", "json", "parquet", "bytes"})
    ensures FailsAt(c, probe, FormatTypeKnown) ==> Validate(c, probe).error.kind == IllegalArgument
    ensures c.formatType.None? ==> Validate(c, probe) == Err(Rejection(FormatTypeKnown, IllegalArgument))
  {
    FailsAtIff(c, probe, FormatTypeKnown);
    FormatKnownIff(c.formatType);
  }

  /** Once the format is settled, the partitioner type must be `partition`,
      `time` or `default` ignoring case. Any other value is an argument error;
      an absent one fails with a null dereference. */
  lemma PartitionerTypeRule(c: Config, probe: string -> ProbeOutcome)
    requires PassesBefore(c, probe, PartitionerTypeKnown)
    ensures c.partitionerType.None? ==> Validate(c, probe) == Err(Rejection(PartitionerTypeKnown, NullPointer))
    ensures c.partitionerType.Some? ==>
      (Validate(c, probe) == Err(Rejection(PartitionerTypeKnown, IllegalArgument))
       <==> !(EqualsIgnoreCase(c.partitionerType.value, "partition")
              || EqualsIgnoreCase(c.partitionerType.value, "time")
              || EqualsIgnoreCase(c.partitionerType.value, "default")))
  {
    RejectedAtFirstFailure(c, probe, PartitionerTypeKnown, NullPointer);
    RejectedAtFirstFailure(c, probe, PartitionerTypeKnown, IllegalArgument);
  }

  /** The time-partitioning checks only ever fire for the time partitioner. */
  lemma TimeChecksOnlyForTimePartitioner(c: Config, probe: string -> ProbeOutcome)
    requires !IsTimePartitioner(c)
    ensures !FailsAt(c, probe, TimePartitionPatternUsable)
    ensures !FailsAt(c, probe, TimePartitionDurationValid)
  {
    FailsAtIff(c, probe, TimePartitionPatternUsable);
    FailsAtIff(c, probe, TimePartitionDurationValid);
  }

  /** Once the pattern is settled, the duration is refused exactly when the time
      partitioner is chosen, the duration is not blank, and it is not digits
      followed by one of d, h, D, H. */
  lemma DurationRule(c: Config, probe: string -> ProbeOutcome)
    requires PassesBefore(c, probe, TimePartitionDurationValid)
    ensures FailsAt(c, probe, TimePartitionDurationValid)
        <==> && IsTimePartitioner(c)
             && IsNotBlank(c.timePartitionDuration)
             && !MatchesDuration(c.timePartitionDuration.value)
    ensures FailsAt(c, probe, TimePartitionDurationValid) ==> Validate(c, probe).error.kind == IllegalArgument
  {
    FailsAtIff(c, probe, TimePartitionDurationValid);
  }

  /** Both flush thresholds must be positive, batch size first. */
  lemma BatchThresholdRule(c: Config, probe: string -> ProbeOutcome)
    requires PassesBefore(c, probe, BatchSizePositive)
    ensures FailsAt(c, probe, BatchSizePositive) <==> c.batchSize <= 0
    ensures c.batchSize > 0 ==> (FailsAt(c, probe, BatchTimePositive) <==> c.batchTimeMs <= 0)
    ensures FailsAt(c, probe, BatchSizePositive) || FailsAt(c, probe, BatchTimePositive)
        ==> Validate(c, probe).error.kind == IllegalArgument
  {
    FailsAtIff(c, probe, BatchSizePositive);
    FailsAtIff(c, probe, BatchTimePositive);
  }

  /** The default thresholds (10 records, 1000 ms) never trip the batching
      checks. */
  lemma DefaultThresholdsAccepted(c: Config, probe: string -> ProbeOutcome)
    requires c.batchSize == Defaults.batchSize && c.batchTimeMs == Defaults.batchTimeMs
    ensures !FailsAt(c, probe, BatchSizePositive) && !FailsAt(c, probe, BatchTimePositive)
  {
    FailsAtIff(c, probe, BatchSizePositive);
    FailsAtIff(c, probe, BatchTimePositive);
  }

  /** With everything else accepted, a blank prefix always passes and a
      non-blank one passes exactly when it does not start with '/' and does
      end with '/'. */
  lemma PathPrefixRule(c: Config, probe: string -> ProbeOutcome)
    requires PassesBefore(c, probe, PathPrefixNoLeadingSlash)
    ensures IsBlank(c.pathPrefix) ==> Validate(c, probe).Ok?
    ensures IsNotBlank(c.pathPrefix) ==>
      (Validate(c, probe).Ok? <==> !StartsWith(c.pathPrefix.value, "/") && EndsWith(c.pathPrefix.value, "/"))
    ensures IsNotBlank(c.pathPrefix) && StartsWith(c.pathPrefix.value, "/") ==>
      Validate(c, probe) == Err(Rejection(PathPrefixNoLeadingSlash, IllegalArgument))
  {
    AcceptedIffAllPass(c, probe);
    RejectedAtFirstFailure(c, probe, PathPrefixNoLeadingSlash, IllegalArgument);
    SourceOrderListsEveryCheckOnce();
    if PassesBefore(c, probe, PathPrefixNoLeadingSlash) {
      forall k: Check | k != PathPrefixNoLeadingSlash && k != PathPrefixTrailingSlash
        ensures Passes(c, probe, k)
      {
        assert Position(k) < Position(PathPrefixNoLeadingSlash);
      }
    }
    if IsNotBlank(c.pathPrefix) {
      PrefixShapeIff(c.pathPrefix.value);
    }
  }

  /** The codec and the three layout flags are never read by validation. */
  lemma IgnoredFieldsHaveNoEffect(c: Config, probe: string -> ProbeOutcome,
                                  codec: Option<string>, metadata: bool, partitionNumber: bool, slice: bool)
    ensures Validate(c.(avroCodec := codec, withMetadata := metadata,
                        withTopicPartitionNumber := partitionNumber, sliceTopicPartitionPath := slice), probe)
         == Validate(c, probe)
  {
  }

  /** Sample settings: an S3 bucket with the time partitioner. */
  const Sample: Config := Defaults.(
    provider := Some("AWS-S3"),
    bucket := Some("bucket"),
    region := Some("us-east-1"),
    formatType := Some("Parquet"),
    partitionerType := Some("time"),
    timePartitionDuration := Some("2h"),
    pathPrefix := Some("a/b/"))

  lemma SampleFieldFacts()
    ensures LowerCase("Parquet") == "parquet"
    ensures EqualsIgnoreCase("AWS-S3", ProviderAwsS3)
    ensures EqualsIgnoreCase("TIME", "time")
    ensures PartitionerEnumIgnoreCase(Some("time")) == Some("TIME")
    ensures PartitionerEnumIgnoreCase(Some("Partition")) == Some("PARTITION")
    ensures !EqualsIgnoreCase("TIME", "Partition")
    ensures IsNotBlank(Some("us-east-1"))
  {
    assert !CharsEqualIgnoreCase('T', 'P');
    assert !CharsEqualIgnoreCase('P', 't');
    assert "us-east-1"[0] == 'u';
  }

  /** The sample settings are accepted, and stay accepted under the identity
      partitioner even with a malformed duration, which is then not read. */
  lemma SampleAccepted(probe: string -> ProbeOutcome)
    ensures Validate(Sample, probe).Ok?
    ensures Validate(Sample.(partitionerType := Some("Partition"), timePartitionDuration := Some("2x")), probe).Ok?
  {
    SampleFieldFacts();
    DurationExamples();
    assert IsNotBlank(Some("2h")) by { assert !IsWhitespace('2'); }
    assert IsNotBlank(Some("a/b/")) by { assert "a/b/"[0] == 'a'; }
    assert "a/b/"[..1] != "/";
    assert "a/b/"[3..] == "/";
  }

  /** Duration "2x" is refused under the time partitioner. */
  lemma MalformedDurationRejected(probe: string -> ProbeOutcome)
    ensures Validate(Sample.(timePartitionDuration := Some("2x")), probe)
         == Err(Rejection(TimePartitionDurationValid, IllegalArgument))
  {
    SampleFieldFacts();
    DurationExamples();
    assert IsNotBlank(Some("2x")) by { assert !IsWhitespace('2'); }
  }

  /** Prefix "/a/b/" is refused for its leading slash, "a/b" for its missing
      trailing one. */
  lemma MalformedPrefixesRejected(probe: string -> ProbeOutcome)
    ensures Validate(Sample.(pathPrefix := Some("/a/b/")), probe)
         == Err(Rejection(PathPrefixNoLeadingSlash, IllegalArgument))
    ensures Validate(Sample.(pathPrefix := Some("a/b")), probe)
         == Err(Rejection(PathPrefixTrailingSlash, IllegalArgument))
  {
    SampleFieldFacts();
    DurationExamples();
    assert IsNotBlank(Some("2h")) by { assert !IsWhitespace('2'); }
    assert IsNotBlank(Some("/a/b/")) by { assert "/a/b/"[0] == '/'; }
    assert IsNotBlank(Some("a/b")) by { assert "a/b"[0] == 'a'; }
    assert "/a/b/"[..1] == "/";
    assert "a/b"[..1] != "/";
    assert "a/b"[2..] != "/";
  }
}
