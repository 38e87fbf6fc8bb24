# Blob-store sink configuration validator

This project models the configuration record of the Pulsar cloud-storage sink
and its `validate()` method. The config names a blob-store provider, a bucket,
a region or endpoint, an output format, a partitioner, the time-partitioning
settings, the flush thresholds and an object path prefix. `validate()` either
accepts the config, or throws at the first statement that fails. It throws a
`NullPointerException` (from Guava `checkNotNull`, or from a method call on a
null field), an `IllegalArgumentException` (from `checkArgument`, an explicit
throw, or a time-partition pattern the date-time formatter refuses), or a
`DateTimeException` (raised while formatting the current time with that
pattern).

Modules:

- `Wrappers`: `Option`, which stands for a nullable Java reference, and
  `Result`, which stands for a call that returns or throws.
- `JavaStrings`: Commons-Lang blankness, `String.equalsIgnoreCase`,
  `StringUtils.lowerCase`, `startsWith` and `endsWith`.
- `DurationPattern`: the duration regex `^\d+[dhDH]$`. It is given as an
  automaton (`PatternMatches`) and as a declarative language
  (`MatchesDuration`), and a lemma proves the two equal.
- `BlobStoreConfig`: the `Config` datatype, the field defaults, and
  `Validate`. `Validate` runs the source's checks in source order, grouped
  into five blocks chained with `:-`. Its result is `Ok(())` or
  `Err(Rejection(check, kind))`: `check` names the statement that threw and
  `kind` the exception class.
- `ValidationRules`: an independent reference. Each check is judged on its
  own (`Verdict`), the checks are listed in source order (`SourceOrder`), and
  the outcome is the first failing check (`FirstFailure`). The lemmas prove
  that `Validate` equals this reference.
- `ValidationProperties`: each rule restated in the user's terms, plus the
  documented examples.

Behaviour of the code that the model keeps:

- A missing `partitionerType` throws a `NullPointerException`, not an
  `IllegalArgumentException`. `EnumUtils.getEnumIgnoreCase` returns null for
  a null name, and the code then calls `equalsIgnoreCase` on the null field.
  The model records this as a `NullPointer` rejection at the partitioner
  check.
- A missing `formatType` is an argument error: `StringUtils.lowerCase(null)`
  is null, and the registry does not contain null.
- For a provider other than `aws-s3`, the endpoint only has to be non-null,
  so a blank endpoint passes.
- The code throws three different exception classes, and the model keeps them
  apart.
- The `PartitionerType` enum is not part of this model. Its constants are
  taken to be `PARTITION` and `TIME`: `TIME` is used at line 117, and the
  message at line 115 lists `partition / time`.

The check that formats the current instant with the configured
`timePartitionPattern` depends on `DateTimeFormatter` and the wall clock. It is
a parameter of `Validate`: `probe: string -> ProbeOutcome` says whether the
formatter accepts the pattern (`PatternOk`), refuses it (`ofPattern` throws
`IllegalArgumentException`) or fails while formatting (`DateTimeException`).

## Model

All source paths are in `src/main/java/org/apache/pulsar/io/jcloud/`, written
out in full below.

| member | source | states |
|---|---|---|
| BlobStoreConfig.Validate | src/main/java/org/apache/pulsar/io/jcloud/BlobStoreAbstractConfig.java:97-136 | an accepted config has provider, bucket, format type and partitioner type set, and positive batch size and batch time |
| BlobStoreConfig.PartitionerEnumIgnoreCase | src/main/java/org/apache/pulsar/io/jcloud/BlobStoreAbstractConfig.java:111 | the enum lookup finds a constant only for a non-null name equal to it ignoring case, and finds none when no constant matches |
| JavaStrings.LowerCaseOrNull | src/main/java/org/apache/pulsar/io/jcloud/BlobStoreAbstractConfig.java:107 | lower-casing is null exactly for null, and otherwise gives a string of the same length that is all lower case and equal to the input ignoring case |
| JavaStrings.EqualsIgnoreCaseIff | src/main/java/org/apache/pulsar/io/jcloud/BlobStoreAbstractConfig.java:100 | two strings are equal ignoring case exactly when their lower-case forms are equal |
| JavaStrings.EqualsIgnoreCaseLowerKey | src/main/java/org/apache/pulsar/io/jcloud/BlobStoreAbstractConfig.java:107 | against a lower-case key, lower-casing then comparing exactly is the same as comparing ignoring case |
| DurationPattern.PatternMatchesIff | src/main/java/org/apache/pulsar/io/jcloud/BlobStoreAbstractConfig.java:125 | the regex matcher accepts exactly one or more ASCII digits followed by exactly one of d, h, D, H |
| DurationPattern.DurationExamples | src/main/java/org/apache/pulsar/io/jcloud/BlobStoreAbstractConfig.java:125 | "2h", "2H", "48d" match; "2x", "h", "2hh", "" and " 2h" do not |
| ValidationRules.FirstFailure | src/main/java/org/apache/pulsar/io/jcloud/BlobStoreAbstractConfig.java:97-136 | a reported failure names a check of the list together with the exception that check throws |
| ValidationRules.FormatKnownIff | src/main/java/org/apache/pulsar/io/jcloud/BlobStoreAbstractConfig.java:107 | the registry lookup of the lower-cased format succeeds exactly when the format equals a registry key ignoring case |
| ValidationRules.PartitionerKnownIff | src/main/java/org/apache/pulsar/io/jcloud/BlobStoreAbstractConfig.java:111-112 | the enum lookup or the `default` alias succeeds exactly when the name is partition, time or default ignoring case |
| ValidationRules.TimeNameIff | src/main/java/org/apache/pulsar/io/jcloud/BlobStoreAbstractConfig.java:117 | comparing `TIME` with the partitioner type ignoring case is the time-partitioner test |
| ValidationRules.PrefixShapeIff | src/main/java/org/apache/pulsar/io/jcloud/BlobStoreAbstractConfig.java:131-134 | for a non-empty prefix, starting and ending with "/" are tests of its first and last character |
| ValidationRules.LocationIsFirstFailure | src/main/java/org/apache/pulsar/io/jcloud/BlobStoreAbstractConfig.java:98-105 | the provider/bucket/region/endpoint block throws exactly the first failing check of provider, bucket, S3 location, endpoint |
| ValidationRules.FormatAndPartitionerIsFirstFailure | src/main/java/org/apache/pulsar/io/jcloud/BlobStoreAbstractConfig.java:107-116 | the format and partitioner block throws exactly the first failing one of those two checks |
| ValidationRules.TimePartitioningIsFirstFailure | src/main/java/org/apache/pulsar/io/jcloud/BlobStoreAbstractConfig.java:117-127 | the time-partitioning block throws exactly the first failing one of the pattern probe and the duration check |
| ValidationRules.BatchingIsFirstFailure | src/main/java/org/apache/pulsar/io/jcloud/BlobStoreAbstractConfig.java:128-129 | the threshold block throws exactly the first failing one of batch size and batch time |
| ValidationRules.PathPrefixIsFirstFailure | src/main/java/org/apache/pulsar/io/jcloud/BlobStoreAbstractConfig.java:130-135 | the prefix block throws exactly the first failing one of the leading-slash and trailing-slash checks |
| ValidationRules.ValidateIsFirstFailure | src/main/java/org/apache/pulsar/io/jcloud/BlobStoreAbstractConfig.java:97-136 | validation equals the reference: it rejects with the first failing check in source order and accepts when none fails |
| ValidationRules.AcceptedIffAllPass | src/main/java/org/apache/pulsar/io/jcloud/BlobStoreAbstractConfig.java:97-136 | validation succeeds if and only if every check passes |
| ValidationRules.RejectedAtFirstFailure | src/main/java/org/apache/pulsar/io/jcloud/BlobStoreAbstractConfig.java:97-136 | validation rejects at a check with an exception kind if and only if all earlier checks pass and that check throws that kind |
| ValidationRules.FailsAtIff | src/main/java/org/apache/pulsar/io/jcloud/BlobStoreAbstractConfig.java:97-136 | validation stops at a check exactly when every earlier check passes and that one fails, and reports that check's exception |
| ValidationProperties.ProviderCheckedBeforeBucket | src/main/java/org/apache/pulsar/io/jcloud/BlobStoreAbstractConfig.java:98-99 | a missing provider is a null-pointer rejection at the provider check, even when the bucket is missing too; then a missing bucket is one at the bucket check; a default config is rejected for its provider |
| ValidationProperties.AwsProviderNeedsRegionOrEndpoint | src/main/java/org/apache/pulsar/io/jcloud/BlobStoreAbstractConfig.java:100-102 | for provider aws-s3 in any case, validation stops at the location check exactly when both region and endpoint are blank, with an argument error; the endpoint null check is skipped |
| ValidationProperties.OtherProviderNeedsEndpoint | src/main/java/org/apache/pulsar/io/jcloud/BlobStoreAbstractConfig.java:103-105 | for any other provider validation stops at the endpoint check exactly when the endpoint is null, with a null-pointer error; a blank endpoint passes |
| ValidationProperties.FormatTypeRule | src/main/java/org/apache/pulsar/io/jcloud/BlobStoreAbstractConfig.java:107-108 | after the location checks, the format is refused exactly when it is absent or its lower-case form is not avro, json, parquet or bytes; the error is an argument error |
| ValidationProperties.PartitionerTypeRule | src/main/java/org/apache/pulsar/io/jcloud/BlobStoreAbstractConfig.java:111-116 | after the format check, an absent partitioner type is a null-pointer rejection, and a present one is an argument rejection exactly when it is not partition, time or default ignoring case |
| ValidationProperties.TimeChecksOnlyForTimePartitioner | src/main/java/org/apache/pulsar/io/jcloud/BlobStoreAbstractConfig.java:117-127 | under any partitioner other than time, neither the pattern probe nor the duration check can reject |
| ValidationProperties.DurationRule | src/main/java/org/apache/pulsar/io/jcloud/BlobStoreAbstractConfig.java:124-126 | after the pattern probe, the duration is refused exactly when the partitioner is time, the duration is not blank and it is not digits followed by one of d/h/D/H; the error is an argument error |
| ValidationProperties.BatchThresholdRule | src/main/java/org/apache/pulsar/io/jcloud/BlobStoreAbstractConfig.java:128-129 | after the time checks, validation stops at the batch-size check exactly when the size is not positive; otherwise at the batch-time check exactly when the time is not positive |
| ValidationProperties.DefaultThresholdsAccepted | src/main/java/org/apache/pulsar/io/jcloud/BlobStoreAbstractConfig.java:90-92 | the default thresholds, 10 records and 1000 ms, never trip either batching check |
| ValidationProperties.PathPrefixRule | src/main/java/org/apache/pulsar/io/jcloud/BlobStoreAbstractConfig.java:130-135 | after the threshold checks, a blank prefix is accepted; a non-blank one is accepted exactly when it does not start with "/" and ends with "/"; a leading "/" is reported first |
| ValidationProperties.IgnoredFieldsHaveNoEffect | src/main/java/org/apache/pulsar/io/jcloud/BlobStoreAbstractConfig.java:97-136 | changing avroCodec, withMetadata, withTopicPartitionNumber or sliceTopicPartitionPath never changes the outcome |
| ValidationProperties.SampleAccepted | src/main/java/org/apache/pulsar/io/jcloud/BlobStoreAbstractConfig.java:97-136 | an S3 config with time partitioner, duration "2h" and prefix "a/b/" is accepted; with the identity partitioner a duration "2x" is not read |
| ValidationProperties.MalformedDurationRejected | src/main/java/org/apache/pulsar/io/jcloud/BlobStoreAbstractConfig.java:124-126 | with the time partitioner, duration "2x" is an argument rejection at the duration check |
| ValidationProperties.MalformedPrefixesRejected | src/main/java/org/apache/pulsar/io/jcloud/BlobStoreAbstractConfig.java:130-135 | prefix "/a/b/" is rejected at the leading-slash check and "a/b" at the trailing-slash check |

## Left out

- The sink pipeline: batching, partitioning, serialization, the exactly-once commit protocol and the blob-store calls. None of it is part of this model.
- The `timePartitionPattern` probe: `DateTimeFormatter.ofPattern` and `Instant.now()` are a foreign library and the clock. The probe is a parameter of `Validate` (`probe`). Only its outcome kind is modelled.
- The `Format` instances bound in the format registry. Only the registry's key set matters to validation.
- Logging, `Serializable`/`serialVersionUID`, and the Lombok-generated accessors and chained setters. They have no behaviour that validation depends on.
- The `PROVIDER_GCS` constant is declared but never read by `validate()`, so it is not modelled.
- `PartitionerType` enum source is not part of this model. Its constant names are taken as `PARTITION` and `TIME`.
- JavaStrings.EqualsIgnoreCase: folds ASCII letters only. Java also equates some non-ASCII characters with ASCII letters (for example dotless `ı` with `I`, the Kelvin sign with `k`). So a provider or partitioner name spelt with such characters is accepted by Java but not by the model.
- JavaStrings.LowerCase: ASCII only and locale-independent. `String.toLowerCase` uses the default locale and full Unicode case mapping.
- JavaStrings.IsWhitespace: the `Character.isWhitespace` set is written out as Java 9 and later define it; Java 8 also counts U+180E (Mongolian vowel separator), which the model does not. It works per code point, where Java's `isBlank` tests UTF-16 code units; none of the whitespace characters is a surrogate, so the two agree.
- Exception messages: a rejection carries only the check and the exception class. `BlobStoreConfig.Message` records the text `validate()` supplies for each check; where it gives `None`, the text comes from the JDK (the null dereference of an absent partitioner type, the date-time formatter's exceptions) and is not modelled.
