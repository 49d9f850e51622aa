/** The output writer, as a buffer that records what it accepted and how many writes it
    was asked for. A failure point makes one chosen write fail after accepting a prefix. */
module Sinks {

  /** `AtCall(index, accepted)`: the write numbered `index` (counting from 0) accepts at
      most `accepted` bytes and reports an error; every other write succeeds whole. */
  datatype FailurePoint = Never | AtCall(index: nat, accepted: nat)

  datatype SinkState = SinkState(data: string, calls: nat)

  datatype WriteResult = WriteResult(state: SinkState, n: nat, failed: bool)

  function Min(a: nat, b: nat): nat { if a < b then a else b }

  /** One `Write(p)`: the bytes accepted are appended, the count reported is their number. */
  function Attempt(st: SinkState, fp: FailurePoint, p: string): WriteResult {
    if fp.AtCall? && fp.index == st.calls then
      var k := Min(fp.accepted, |p|);
      WriteResult(SinkState(st.data + p[..k], st.calls + 1), k, true)
    else
      WriteResult(SinkState(st.data + p, st.calls + 1), |p|, false)
  }

  /** A write is one more call; it appends a prefix of `p` and reports its length, which is
      all of `p` unless this is the call the failure point names. */
  lemma AttemptWrites(st: SinkState, fp: FailurePoint, p: string)
    ensures var r := Attempt(st, fp, p);
      && r.state.calls == st.calls + 1
      && r.n <= |p| && r.state.data == st.data + p[..r.n]
      && (r.failed <==> fp.AtCall? && fp.index == st.calls)
      && (!r.failed ==> r.n == |p|)
  {
  }

  class Sink {
    var data: string
    var calls: nat
    const failure: FailurePoint

    constructor (failure: FailurePoint)
      ensures data == [] && calls == 0 && this.failure == failure
    {
      data := [];
      calls := 0;
      this.failure := failure;
    }

    function State(): SinkState
      reads this
    {
      SinkState(data, calls)
    }

    /** `io.Writer.Write`: returns the bytes accepted and whether the write failed. */
    method Write(p: string) returns (n: nat, failed: bool)
      modifies this
      ensures WriteResult(State(), n, failed) == Attempt(old(State()), failure, p)
    {
      var r := Attempt(State(), failure, p);
      data, calls := r.state.data, r.state.calls;
      n, failed := r.n, r.failed;
    }
  }
}
