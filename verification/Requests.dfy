/** Some requests that pass validation. */
module Requests {
  import opened Types
  import opened Domain

  const FIRST := Uuid(10)
  const SECOND := Uuid(20)

  ghost function Request(s: Uuid, key: Uuid, payload: Payload): Command {
    var action := ActionOf(payload);
    Command(OperationRequest(key, Identity(Uuid(1), Uuid(2), s, Uuid(3), action, GenerationOf(payload),
                                           RequestHash(action, payload))), payload)
  }

  ghost function Ask(s: Uuid, key: Uuid, name: string, bucketName: string, quota: U64): Command {
    Request(s, key, Reconcile(1, name, SyouyuSpec("r", bucketName, quota, 1)))
  }

  lemma LettersArePlain(s: string)
    requires |s| <= 3 && forall i | 0 <= i < |s| :: 'a' <= s[i] <= 'z'
    ensures ByteLength(s) == |s| && (forall i | 0 <= i < |s| :: !IsControl(s[i]) && !IsWhitespace(s[i]))
  {
    AsciiByteLength(s);
  }

  lemma TripleIsValid(s: string)
    requires |s| == 3 && forall i | 0 <= i < |s| :: 'a' <= s[i] <= 'z'
    ensures ValidateBucketName(s).None?
  {
    LettersArePlain(s);
    forall i | 0 <= i < |RESERVED_PREFIXES| ensures !(RESERVED_PREFIXES[i] <= s) {
    }
    forall i | 0 <= i < |RESERVED_SUFFIXES| ensures !HasSuffix(s, RESERVED_SUFFIXES[i]) {
    }
  }

  lemma AskIsValid(s: Uuid, key: Uuid, name: string, bucketName: string, quota: U64)
    requires name != [] && ByteLength(name) <= MAX_SERVICE_NAME_LENGTH
    requires ValidateBucketName(bucketName).None? && 1 <= quota <= I64_MAX
    ensures WellFormed(Ask(s, key, name, bucketName, quota))
    ensures ValidateCommand(Ask(s, key, name, bucketName, quota)).None?
  {
    LettersArePlain("r");
  }

  ghost function Create(key: Uuid): Command {
    Request(FIRST, key, CreateCredential("c", BucketPermissions(true, true), CredentialLimits(1, 1)))
  }

  lemma CreateIsValid(key: Uuid)
    ensures WellFormed(Create(key)) && ValidateCommand(Create(key)).None?
  {
    LettersArePlain("c");
  }
}
