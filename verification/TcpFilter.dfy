/**
  The bottom filter of every stream (lib/tcp_stream_buffer_filter.cc), over a kernel that answers as it likes
  within the contracts of send, recv and getsockopt. The error numbers for which the source throws do not
  occur.
 */
module TcpFilter {
  import opened DataViews
  import opened Wrappers

  datatype InResult = CloseRead | NoData | Data(view: DataView) {
    predicate HasData() {
      Data? && |view.bytes| > 0
    }
  }

  datatype ConnectResult = Pending | Failed | Success

  // What recv returned: 0, -1 with EAGAIN, -1 with another error, or the bytes read.
  datatype Received = EndOfFile | WouldBlock | Broken | Chunk(bytes: seq<byte>)

  // -1 with EAGAIN, -1 with another error, or the number of bytes taken.
  datatype Sent = Again | Error | Count(n: nat)

  // send(2): of a non-empty buffer it takes at least one byte, or fails; of a broken connection it always fails.
  method Send(data: seq<byte>, broken: bool) returns (r: Sent)
    requires data != []
    ensures broken ==> r == Error
    ensures r.Count? ==> 1 <= r.n <= |data|
  {
    if broken { return Error; }
    r :| r.Count? ==> 1 <= r.n <= |data|;
  }

  // Reading closes on end of file and on errors, and goes on only after data, of which nothing is lost.
  function In(answer: Received): (r: InResult)
    ensures r.CloseRead? <==> answer == EndOfFile || answer == Broken
    ensures r.HasData() <==> answer.Chunk? && answer.bytes != []
    ensures r.Data? ==> answer == Chunk(r.view.bytes) && r.view.saved
  {
    match answer
    case EndOfFile => CloseRead
    case WouldBlock => NoData
    case Broken => CloseRead
    case Chunk(bytes) => Data(DataView(bytes, false).Save())
  }

  // Sends what the kernel takes of the view and replaces the view by what is left of it; `rest` is the view
  // reference after the call, `sent` what send returned. A short send leaves a proper, non-empty suffix: with the
  // bytes taken it makes up the view, so nothing is repeated or skipped by sending the rest later. Nothing is
  // taken of an open socket only on EAGAIN.
  method Out(view: DataView, broken: bool)
    returns (close: bool, rest: Option<DataView>, ghost taken: seq<byte>, ghost sent: Sent)
    requires view.bytes != []
    ensures sent.Error? <==> close
    ensures broken ==> close
    ensures sent.Again? <==> !close && taken == []
    ensures sent.Count? ==> |taken| == sent.n
    ensures close ==> taken == [] && rest == Some(view)
    ensures !close ==> taken + (match rest case None => [] case Some(v) => v.bytes) == view.bytes
    ensures !close && rest.Some? ==>
      0 < |rest.value.bytes| <= |view.bytes| && rest.value.bytes == view.bytes[|view.bytes| - |rest.value.bytes|..]
    ensures !close && rest.Some? && taken == [] ==> rest.value == view
    ensures !close && rest.Some? && taken != [] ==> rest.value.saved
  {
    var r := Send(view.bytes, broken);
    sent := r;
    match r
    case Again => return false, Some(view), [], r;
    case Error => return true, Some(view), [], r;
    case Count(n) =>
      if n < |view.bytes| {
        return false, Some(view.Slice(n).value.Save()), view.bytes[..n], r;
      } else {
        return false, None, view.bytes, r;
      }
  }

  // `pendingConnect` is the constructor's flag, set when the descriptor is already connected; `socketError` is
  // SO_ERROR.
  function Connect(pendingConnect: bool, socketError: int): (r: ConnectResult)
    ensures r == Success <==> pendingConnect || socketError == 0
    ensures r != Pending
  {
    if pendingConnect then Success
    else if socketError != 0 then Failed
    else Success
  }

  // Accepting a connection that is not connected yet is a logic error; nothing calls this with `false`.
  function Accept(pendingConnect: bool): ConnectResult
    requires pendingConnect
  {
    Success
  }

  const SHUTDOWN_COMPLETE: bool := true
}
