/** Two devices and one caller, for concrete runs of the connection protocol. */
module ConnectScenario {
  import opened ConnectTable
  import opened ConnectProtocol

  const A: Device := "a"
  const B: Device := "b"
  const OWNER := CallerInfo(0, 1, 1, A)
  const SESSION := Session(A, B, OWNER, HarmonyComponent, ["e"])
  const BOTH := {(A, B), (B, A)}

  lemma TwoDevices()
    ensures A != B
    ensures BOTH - {(A, B)} == {(B, A)} && BOTH - {(B, A)} == {(A, B)} && {} + BOTH == BOTH && BOTH - BOTH == {}
    ensures {(A, B)} - {(A, B)} == {} && {(B, A)} - {(B, A)} == {}
  {
    assert A[0] != B[0];
  }
}
