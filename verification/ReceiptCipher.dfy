/** The associated data that ties a sealed response to its idempotency key and operation id. */
module ReceiptCipher {
  import opened Types

  /** The ASCII bytes of `syouyu-receipt-1`. */
  const PURPOSE: seq<Byte> := [115, 121, 111, 117, 121, 117, 45, 114, 101, 99, 101, 105, 112, 116, 45, 49]

  function AssociatedData(key: seq<Byte>, operation: seq<Byte>): seq<Byte> {
    key + operation + PURPOSE
  }

  method Aad(key: array<Byte>, operation: array<Byte>) returns (value: array<Byte>)
    requires key.Length == 16 && operation.Length == 16
    ensures fresh(value) && value.Length == 48
    ensures value[..] == AssociatedData(key[..], operation[..])
  {
    value := new Byte[48](_ => 0);
    for i := 0 to 16
      invariant value[..i] == key[..i]
    {
      value[i] := key[i];
    }
    for i := 0 to 16
      invariant value[..16] == key[..] && value[16..16 + i] == operation[..i]
    {
      value[16 + i] := operation[i];
    }
    for i := 0 to 16
      invariant value[..16] == key[..] && value[16..32] == operation[..] && value[32..32 + i] == PURPOSE[..i]
    {
      value[32 + i] := PURPOSE[i];
    }
    assert value[..] == value[..16] + value[16..32] + value[32..48];
  }

  /** Different keys or operations never share their associated data, so a response opens only where it was sealed. */
  lemma AssociatedDataIsInjective(key: seq<Byte>, operation: seq<Byte>, key': seq<Byte>, operation': seq<Byte>)
    requires |key| == |key'| == |operation| == |operation'| == 16
    ensures AssociatedData(key, operation) == AssociatedData(key', operation') <==> key == key' && operation == operation'
  {
    assert AssociatedData(key, operation)[..16] == key && AssociatedData(key, operation)[16..32] == operation;
    assert AssociatedData(key', operation')[..16] == key' && AssociatedData(key', operation')[16..32] == operation';
  }
}
