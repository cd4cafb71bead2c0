/** Choice of the mail exchanger (functions.go lines 127-135): start from the first record
    and replace it only on a strictly smaller preference, so the first record of minimal
    preference wins. */
module Mx {
  /** Go's uint16, the type of net.MX.Pref. */
  newtype uint16 = x: int | 0 <= x < 0x1_0000

  /** net.MX: a mail exchanger host and its preference (lower is preferred). */
  datatype MX = MX(host: string, pref: uint16)

  /** The index of the first record of minimal preference. */
  function MinIndex(records: seq<MX>): (k: nat)
    requires |records| > 0
    ensures k < |records|
    ensures forall j :: 0 <= j < |records| ==> records[k].pref <= records[j].pref
    ensures forall j :: 0 <= j < k ==> records[j].pref > records[k].pref
  {
    if |records| == 1 then 0
    else
      var m := MinIndex(records[..|records| - 1]);
      if records[|records| - 1].pref < records[m].pref then |records| - 1 else m
  }

  /** At most one index is both minimal and before every other minimal one. */
  lemma FirstMinimalUnique(records: seq<MX>, k: nat)
    requires k < |records|
    requires forall j :: 0 <= j < |records| ==> records[k].pref <= records[j].pref
    requires forall j :: 0 <= j < k ==> records[j].pref > records[k].pref
    ensures k == MinIndex(records)
  {
  }

  /** The loop of functions.go lines 127-135: returns the host and preference of the record
      the SMTP probe will dial. */
  method SelectMX(records: seq<MX>) returns (host: string, pref: uint16)
    requires |records| > 0
    ensures forall j :: 0 <= j < |records| ==> pref <= records[j].pref
    ensures host == records[MinIndex(records)].host && pref == records[MinIndex(records)].pref
  {
    host := records[0].host;
    pref := records[0].pref;
    ghost var k := 0;
    for i := 0 to |records|
      invariant k <= i && k < |records|
      invariant host == records[k].host && pref == records[k].pref
      invariant forall j :: 0 <= j < i ==> pref <= records[j].pref
      invariant forall j :: 0 <= j < k ==> records[j].pref > pref
    {
      if records[i].pref >= pref {
        continue;
      }
      pref := records[i].pref;
      host := records[i].host;
      k := i;
    }
    FirstMinimalUnique(records, k);
  }

  /** The worked example: among preferences 20, 10, 10 the first record with 10 is chosen. */
  lemma SelectionExample()
    ensures MinIndex([MX("A", 20), MX("B", 10), MX("C", 10)]) == 1
  {
    FirstMinimalUnique([MX("A", 20), MX("B", 10), MX("C", 10)], 1);
  }
}
