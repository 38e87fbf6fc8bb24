/** The sink's configuration record and its `validate()` method
    (BlobStoreAbstractConfig). Every nullable Java `String` field is an
    `Option<string>`; `int` and `long` fields keep their Java widths. */
module BlobStoreConfig {
  import opened Wrappers
  import opened JavaStrings
  import opened DurationPattern

  newtype int32 = x: int | -0x8000_0000 <= x < 0x8000_0000
  newtype int64 = x: int | -0x8000_0000_0000_0000 <= x < 0x8000_0000_0000_0000

  const ProviderAwsS3: string := "aws-s3"

  /** The keys of the format registry; the serializers bound to them are not
      part of this model. */
  const FormatKeys: set<string> := {"avro", "json", "parquet", "bytes"}

  /** Names of the `PartitionerType` enum constants. */
  const PartitionerTypeNames: seq<string> := ["PARTITION", "TIME"]
  const TimePartitionerName: string := "TIME"

  /** Accepted in addition to the enum names, for backward compatibility. */
  const DefaultPartitionerAlias: string := "default"

  datatype Config = Config(
    provider: Option<string>,
    bucket: Option<string>,
    region: Option<string>,
    endpoint: Option<string>,
    pathPrefix: Option<string>,
    formatType: Option<string>,
    partitionerType: Option<string>,
    avroCodec: Option<string>,
    timePartitionPattern: Option<string>,
    timePartitionDuration: Option<string>,
    sliceTopicPartitionPath: bool,
    batchSize: int32,
    batchTimeMs: int64,
    withMetadata: bool,
    withTopicPartitionNumber: bool)

  /** A freshly constructed config: field initialisers only. */
  const Defaults: Config := Config(
    provider := None,
    bucket := None,
    region := None,
    endpoint := None,
    pathPrefix := None,
    formatType := None,
    partitionerType := None,
    avroCodec := Some("snappy"),
    timePartitionPattern := None,
    timePartitionDuration := None,
    sliceTopicPartitionPath := false,
    batchSize := 10,
    batchTimeMs := 1000,
    withMetadata := false,
    withTopicPartitionNumber := true)

  /** The checks of `validate()`, one per statement that can throw, in source
      order. */
  datatype Check =
    | ProviderSet
    | BucketSet
    | AwsRegionOrEndpoint
    | EndpointSet
    | FormatTypeKnown
    | PartitionerTypeKnown
    | TimePartitionPatternUsable
    | TimePartitionDurationValid
    | BatchSizePositive
    | BatchTimePositive
    | PathPrefixNoLeadingSlash
    | PathPrefixTrailingSlash

  /** The exception thrown: `NullPointerException` (from `checkNotNull` or a
      method call on null), `IllegalArgumentException` (from `checkArgument`,
      an explicit throw, or a pattern the formatter refuses), or a
      `DateTimeException` raised while formatting the current time. */
  datatype ErrorKind = NullPointer | IllegalArgument | DateTime

  datatype Rejection = Rejection(check: Check, kind: ErrorKind)

  /** What trying the configured time-partition pattern on the current instant
      gives. The formatter library and the clock are not modelled, so this is a
      parameter of validation. */
  datatype ProbeOutcome = PatternOk | PatternRefused | FormattingFailed

  /** The exception message `validate()` itself supplies for each check.
      `None` means the text comes from the JDK rather than from `validate()`:
      the null dereference of an absent partitioner type, and the exceptions
      the date-time formatter raises. */
  function Message(r: Rejection): Option<string> {
    match r.check
    case ProviderSet => Some("provider not set.")
    case BucketSet => Some("bucket property not set.")
    case AwsRegionOrEndpoint => Some("Either the aws-end-point or aws-region must be set")
    case EndpointSet => Some("endpoint property not set.")
    case FormatTypeKnown => Some("formatType property not set.")
    case PartitionerTypeKnown =>
      if r.kind == NullPointer then None
      else Some("partitionerType property not set properly, available options: partition / time")
    case TimePartitionPatternUsable => None
    case TimePartitionDurationValid => Some("timePartitionDuration invalid.")
    case BatchSizePositive => Some("batchSize must be a positive integer.")
    case BatchTimePositive => Some("batchTimeMs must be a positive long.")
    case PathPrefixNoLeadingSlash => Some("pathPrefix cannot start with '/',the style is 'xx/xxx/'.")
    case PathPrefixTrailingSlash => Some("pathPrefix must end with '/',the style is 'xx/xxx/'.")
  }

  /** Guava `checkNotNull`, and equally a method call on a possibly-null
      receiver: the value, or a null-pointer rejection. */
  function NotNull<T>(x: Option<T>, at: Check): Result<T, Rejection> {
    match x
    case Some(v) => Ok(v)
    case None => Err(Rejection(at, NullPointer))
  }

  /** Guava `checkArgument`. */
  function Argument(condition: bool, at: Check): Result<(), Rejection> {
    if condition then Ok(()) else Err(Rejection(at, IllegalArgument))
  }

  /** `EnumUtils.getEnumIgnoreCase(PartitionerType.class, name)`: the first
      constant whose name equals `name` ignoring case; null for a null name. */
  function PartitionerEnumIgnoreCase(name: Option<string>): (r: Option<string>)
    ensures r.Some? ==> name.Some? && r.value in PartitionerTypeNames
    ensures r.Some? ==> EqualsIgnoreCase(r.value, name.value)
    ensures r.None? && name.Some? ==>
      forall n :: n in PartitionerTypeNames ==> !EqualsIgnoreCase(n, name.value)
  {
    match name
    case None => None
    case Some(s) => FindIgnoreCase(PartitionerTypeNames, s)
  }

  function FindIgnoreCase(names: seq<string>, s: string): (r: Option<string>)
    ensures r.Some? ==> r.value in names && EqualsIgnoreCase(r.value, s)
    ensures r.None? ==> forall n :: n in names ==> !EqualsIgnoreCase(n, s)
  {
    if names == [] then None
    else if EqualsIgnoreCase(names[0], s) then Some(names[0])
    else FindIgnoreCase(names[1..], s)
  }

  /** The pattern probe's exception, if any. */
  function Probe(outcome: ProbeOutcome): Result<(), Rejection> {
    match outcome
    case PatternOk => Ok(())
    case PatternRefused => Err(Rejection(TimePartitionPatternUsable, IllegalArgument))
    case FormattingFailed => Err(Rejection(TimePartitionPatternUsable, DateTime))
  }

  /** `checkNotNull(provider)` through `checkNotNull(endpoint)`: provider and
      bucket are required; an S3 provider needs a region or an endpoint, any
      other provider a non-null endpoint. */
  function CheckLocation(c: Config): Result<(), Rejection> {
    var provider :- NotNull(c.provider, ProviderSet);
    var _ :- NotNull(c.bucket, BucketSet);
    if EqualsIgnoreCase(provider, ProviderAwsS3) then
      Argument(IsNotBlank(c.region) || IsNotBlank(c.endpoint), AwsRegionOrEndpoint)
    else
      var _ :- NotNull(c.endpoint, EndpointSet);
      Ok(())
  }

  /** The `formatMap` lookup and the `PartitionerType` lookup: a registered
      format and a known partitioner type. */
  function CheckFormatAndPartitioner(c: Config): Result<(), Rejection> {
    var _ :- Argument(LowerCaseOrNull(c.formatType).Some? &&
                      LowerCaseOrNull(c.formatType).value in FormatKeys, FormatTypeKnown);
    if PartitionerEnumIgnoreCase(c.partitionerType).Some? then Ok(())
    else
      var partitionerType :- NotNull(c.partitionerType, PartitionerTypeKnown);
      Argument(EqualsIgnoreCase(partitionerType, DefaultPartitionerAlias), PartitionerTypeKnown)
  }

  /** The `PartitionerType.TIME` block: for the time partitioner, a usable pattern and a
      well-formed duration, each only when set. */
  function CheckTimePartitioning(c: Config, probe: string -> ProbeOutcome): Result<(), Rejection> {
    var timed := c.partitionerType.Some? && EqualsIgnoreCase(TimePartitionerName, c.partitionerType.value);
    var _ :-
      if timed && IsNotBlank(c.timePartitionPattern) then Probe(probe(c.timePartitionPattern.value))
      else Ok(());
    if timed && IsNotBlank(c.timePartitionDuration) then
      Argument(PatternMatches(c.timePartitionDuration.value), TimePartitionDurationValid)
    else Ok(())
  }

  /** `checkArgument(batchSize > 0)` and `checkArgument(batchTimeMs > 0)`: both
      flush thresholds positive. */
  function CheckBatching(c: Config): Result<(), Rejection> {
    var _ :- Argument(c.batchSize > 0, BatchSizePositive);
    Argument(c.batchTimeMs > 0, BatchTimePositive)
  }

  /** The `pathPrefix` block: a set path prefix has the shape `xx/xxx/`. */
  function CheckPathPrefix(c: Config): Result<(), Rejection> {
    if IsNotBlank(c.pathPrefix) then
      var _ :- Argument(!StartsWith(c.pathPrefix.value, "/"), PathPrefixNoLeadingSlash);
      Argument(EndsWith(c.pathPrefix.value, "/"), PathPrefixTrailingSlash)
    else Ok(())
  }

  /** `validate()`: accept, or reject with the exception of the first statement
      that throws. The config is a value, so validation changes no field. */
  function Validate(c: Config, probe: string -> ProbeOutcome): (r: Result<(), Rejection>)
    ensures r.Ok? ==> c.provider.Some? && c.bucket.Some? && c.formatType.Some?
    ensures r.Ok? ==> c.partitionerType.Some?
    ensures r.Ok? ==> c.batchSize > 0 && c.batchTimeMs > 0
  {
    var _ :- CheckLocation(c);
    var _ :- CheckFormatAndPartitioner(c);
    var _ :- CheckTimePartitioning(c, probe);
    var _ :- CheckBatching(c);
    CheckPathPrefix(c)
  }
}
