/** Validation of desired state, and what an accepted value promises to the code downstream. */
module Domain {
  import opened Types

  const MAX_REGION_LENGTH := 63
  const MIN_BUCKET_NAME_LENGTH := 3
  const MAX_BUCKET_NAME_LENGTH := 63
  const MAX_CREDENTIAL_NAME_LENGTH := 128
  const MAX_SERVICE_NAME_LENGTH := 120
  const MAX_GARAGE_INPUT_LENGTH := 256

  const RESERVED_PREFIXES := ["xn--", "sthree-", "amzn-s3-demo-"]
  const RESERVED_SUFFIXES := ["-s3alias", "--ol-s3", ".mrap", "--x-s3", "--table-s3", "-an"]

  /** None when the value is accepted. */
  type Verdict = Option<ValidationError>

  // ---------------------------------------------------------------- characters

  function Utf8Width(c: char): (n: nat)
    ensures 1 <= n <= 4
  {
    if c as int < 0x80 then 1 else if c as int < 0x800 then 2 else if c as int < 0x1_0000 then 3 else 4
  }

  /** The length of a string in bytes, as `str::len` counts it. */
  function ByteLength(s: string): (n: nat)
    ensures |s| <= n
  {
    if s == [] then 0 else Utf8Width(s[0]) + ByteLength(s[1..])
  }

  predicate IsLower(c: char) { 'a' <= c <= 'z' }

  predicate IsUpper(c: char) { 'A' <= c <= 'Z' }

  predicate IsDigit(c: char) { '0' <= c <= '9' }

  predicate IsAlphanumeric(c: char) { IsLower(c) || IsUpper(c) || IsDigit(c) }

  predicate IsControl(c: char) { c as int < 0x20 || 0x7F <= c as int <= 0x9F }

  predicate IsWhitespace(c: char) {
    || 0x09 <= c as int <= 0x0D
    || 0x2000 <= c as int <= 0x200A
    || c as int in {0x20, 0x85, 0xA0, 0x1680, 0x2028, 0x2029, 0x202F, 0x205F, 0x3000}
  }

  predicate HasSuffix(s: string, suffix: string) {
    |suffix| <= |s| && s[|s| - |suffix|..] == suffix
  }

  predicate IsOctet(s: string) {
    && 1 <= |s| <= 3
    && (forall i | 0 <= i < |s| :: IsDigit(s[i]))
    && (|s| > 1 ==> s[0] != '0')
    && (|s| == 3 ==> s[0] < '2' || (s[0] == '2' && (s[1] < '5' || (s[1] == '5' && s[2] <= '5'))))
  }

  /** Four dotted decimal octets without leading zeros. */
  predicate IsIpv4(s: string) {
    exists a, b, c | 0 <= a < b < c < |s| ::
      && s[a] == '.' && s[b] == '.' && s[c] == '.'
      && IsOctet(s[..a]) && IsOctet(s[a + 1..b]) && IsOctet(s[b + 1..c]) && IsOctet(s[c + 1..])
  }

  // ---------------------------------------------------------------- validators

  function ValidateIdentifier(field: string, value: string, maximum: nat): Verdict {
    if value == [] || ByteLength(value) > maximum then Some(InvalidLength(field))
    else if exists i | 0 <= i < |value| :: IsControl(value[i]) then Some(InvalidField(field))
    else None
  }

  function ValidateHumanName(field: string, value: string, maximum: nat): Verdict {
    var verdict := ValidateIdentifier(field, value, maximum);
    if verdict.Some? then verdict
    else if value != [] && (IsWhitespace(value[0]) || IsWhitespace(value[|value| - 1])) then Some(InvalidField(field))
    else None
  }

  predicate RegionCharacter(c: char) { IsLower(c) || IsDigit(c) || c == '-' }

  function ValidateRegion(value: string): Verdict {
    var verdict := ValidateIdentifier("region", value, MAX_REGION_LENGTH);
    if verdict.Some? then verdict
    else if value == []
        || !IsAlphanumeric(value[0])
        || !IsAlphanumeric(value[|value| - 1])
        || !(forall i | 0 <= i < |value| :: RegionCharacter(value[i]))
    then Some(InvalidField("region"))
    else None
  }

  /** The service configuration checks its own region with this second implementation of the rule. */
  predicate ConfiguredRegion(value: string) {
    !(|| value == []
      || ByteLength(value) > 63
      || "-" <= value
      || HasSuffix(value, "-")
      || exists i | 0 <= i < |value| :: !IsLower(value[i]) && !IsDigit(value[i]) && value[i] != '-')
  }

  predicate BucketNameCharacter(c: char) { IsLower(c) || IsDigit(c) || c == '.' || c == '-' }

  function ValidateBucketName(value: string): Verdict {
    if !(MIN_BUCKET_NAME_LENGTH <= ByteLength(value) <= MAX_BUCKET_NAME_LENGTH) then Some(InvalidLength("bucket_name"))
    else if || !(forall i | 0 <= i < |value| :: BucketNameCharacter(value[i]))
            || value == []
            || !IsAlphanumeric(value[0])
            || !IsAlphanumeric(value[|value| - 1])
            || (exists i | 0 <= i < |value| - 1 :: value[i] == '.' && value[i + 1] == '.')
            || IsIpv4(value)
    then Some(InvalidField("bucket_name"))
    else if || (exists i | 0 <= i < |RESERVED_PREFIXES| :: RESERVED_PREFIXES[i] <= value)
            || (exists i | 0 <= i < |RESERVED_SUFFIXES| :: HasSuffix(value, RESERVED_SUFFIXES[i]))
    then Some(InvalidField("bucket_name"))
    else None
  }

  function EnsureQuota(field: string, value: U64): Verdict {
    if 1 <= value <= I64_MAX then None else Some(OutOfRange(field))
  }

  function ValidateQuota(spec: SyouyuSpec): Verdict {
    var verdict := EnsureQuota("quota_bytes", spec.quotaBytes);
    if verdict.Some? then verdict else EnsureQuota("quota_objects", spec.quotaObjects)
  }

  function ValidateSpec(spec: SyouyuSpec): Verdict {
    var region := ValidateRegion(spec.region);
    var bucketName := ValidateBucketName(spec.bucketName);
    if region.Some? then region else if bucketName.Some? then bucketName else ValidateQuota(spec)
  }

  function ValidateCredentialSpec(name: string, permissions: BucketPermissions): Verdict {
    var verdict := ValidateHumanName("credential_name", name, MAX_CREDENTIAL_NAME_LENGTH);
    if verdict.Some? then verdict
    else if permissions.read || permissions.write then None
    else Some(InvalidField("permissions"))
  }

  /** A request is checked against its own generation and payload before any transaction begins. */
  function ValidateCommand(cmd: Command): Option<StoreError> {
    var generation := cmd.operation.identity.generation;
    if generation.Some? && generation.value <= 0 then Some(Validation)
    else
      match cmd.payload
      case Reconcile(g, name, spec) =>
        if generation != Some(g) || name == [] || ByteLength(name) > MAX_SERVICE_NAME_LENGTH then Some(Validation)
        else (match ValidateSpec(spec) case Some(e) => Some(DomainValidation(e)) case None => None)
      case Delete(_, g) => if generation != Some(g) then Some(Validation) else None
      case CreateCredential(name, permissions, limits) =>
        if limits.maxCredentialsPerBucket == 0 || limits.maxTotalCredentials == 0 then Some(Configuration)
        else (match ValidateCredentialSpec(name, permissions) case Some(e) => Some(DomainValidation(e)) case None => None)
      case RevokeCredential(_) => None
  }

  // ---------------------------------------------------------------- the checks downstream

  /** The conversion of an unsigned value to a BIGINT column. */
  function ToI64(value: U64): Option<I64> {
    if value <= I64_MAX then Some(value) else None
  }

  /** Reading a BIGINT column back as an unsigned value. */
  function FromI64(value: I64): Option<U64> {
    if 0 <= value then Some(value) else None
  }

  /** Every string sent to the Garage administration API passes this test or is refused locally. */
  predicate GarageInput(value: string) {
    && value != []
    && ByteLength(value) <= MAX_GARAGE_INPUT_LENGTH
    && !(exists i | 0 <= i < |value| :: IsControl(value[i]))
  }

  /** Garage accepts both quota dimensions or neither, and no limited dimension may be zero. */
  predicate GarageQuotas(maxSize: Option<U64>, maxObjects: Option<U64>) {
    match (maxSize, maxObjects)
    case (Some(size), Some(objects)) => size > 0 && objects > 0
    case (None, None) => true
    case _ => false
  }

  /** The CHECK clauses of the bucket table on the columns a spec supplies. */
  predicate BucketChecks(bucketName: string, region: string, quotaBytes: I64, quotaObjects: I64) {
    3 <= |bucketName| <= 63 && 1 <= |region| <= 64 && quotaBytes > 0 && quotaObjects > 0
  }

  /** A TEXT column holds any character but NUL. */
  predicate Storable(value: string) {
    '\0' !in value
  }

  /** What the service table asks of the columns a command supplies: its CHECK clauses, and a name that TEXT can hold. */
  predicate ServiceChecks(name: string, generation: I64) {
    1 <= |name| <= 120 && generation > 0 && Storable(name)
  }

  // ---------------------------------------------------------------- properties

  lemma {:induction false} AsciiByteLength(s: string)
    requires forall i | 0 <= i < |s| :: s[i] as int < 0x80
    ensures ByteLength(s) == |s|
  {
    if s != [] {
      AsciiByteLength(s[1..]);
    }
  }

  lemma {:induction false} ByteLengthBound(s: string)
    ensures ByteLength(s) <= 4 * |s|
  {
    if s != [] {
      ByteLengthBound(s[1..]);
    }
  }

  /** Both implementations of the region rule accept exactly the same strings. */
  lemma RegionRulesAgree(value: string)
    ensures ValidateRegion(value).None? <==> ConfiguredRegion(value)
  {
    if value != [] {
      assert "-" <= value <==> value[0] == '-';
      assert value[|value| - 1..] == [value[|value| - 1]];
      assert HasSuffix(value, "-") <==> value[|value| - 1] == '-';
      if forall i | 0 <= i < |value| :: RegionCharacter(value[i]) {
        assert RegionCharacter(value[0]) && RegionCharacter(value[|value| - 1]);
        assert forall i | 0 <= i < |value| :: !IsControl(value[i]);
      } else {
        var i :| 0 <= i < |value| && !RegionCharacter(value[i]);
        assert !ConfiguredRegion(value);
      }
    }
  }

  /** An accepted spec converts to BIGINT and back unchanged, satisfies the Garage quota and input rules, and meets
      every CHECK clause of the bucket table. */
  lemma ValidatedSpecIsAcceptedDownstream(spec: SyouyuSpec)
    requires ValidateSpec(spec).None?
    ensures ToI64(spec.quotaBytes).Some? && FromI64(ToI64(spec.quotaBytes).value) == Some(spec.quotaBytes)
    ensures ToI64(spec.quotaObjects).Some? && FromI64(ToI64(spec.quotaObjects).value) == Some(spec.quotaObjects)
    ensures GarageQuotas(Some(spec.quotaBytes), Some(spec.quotaObjects))
    ensures GarageInput(spec.bucketName)
    ensures BucketChecks(spec.bucketName, spec.region, spec.quotaBytes, spec.quotaObjects)
  {
    var name := spec.bucketName;
    assert forall i | 0 <= i < |name| :: BucketNameCharacter(name[i]);
    assert forall i | 0 <= i < |name| :: name[i] as int < 0x80 && !IsControl(name[i]);
    AsciiByteLength(name);
  }

  /** A quota converts to BIGINT and satisfies the table exactly when the domain accepts it. */
  lemma QuotaRuleIsExact(field: string, value: U64)
    ensures EnsureQuota(field, value).None? <==> ToI64(value).Some? && GarageQuotas(Some(value), Some(value))
  {
  }

  /** A reconcile command that passes validation is one the service table takes, exactly when its name holds no NUL: the
      validator looks only at the length of the name. */
  lemma ValidatedReconcileIsAcceptedDownstream(cmd: Command)
    requires cmd.payload.Reconcile? && ValidateCommand(cmd).None?
    ensures ServiceChecks(cmd.payload.name, cmd.payload.generation) <==> Storable(cmd.payload.name)
    ensures ValidateSpec(cmd.payload.spec).None?
  {
  }
}
