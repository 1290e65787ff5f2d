/** The host application as the plugin sees it through its callback table:
    `msg` delivers a message and answers with a `PluginReturn`, `get_id`
    hands out the local peer id in a fresh C string. */
module Host {
  import opened Bytes
  import opened Memory
  import opened Errno
  import opened PluginBase

  /** One call of the host's `msg` callback: the buffers it was given. */
  datatype Sent = Sent(peer: seq<byte>, target: seq<byte>, id: seq<byte>, content: seq<byte>)

  class Host {
    /** Every `msg` call so far, oldest first. */
    var sent: seq<Sent>
    /** How many times `get_id` has been called. */
    var idRequests: nat
    /** The text `get_id` answers with (a terminator is added). */
    const localId: seq<byte>
    /** What `msg` answers: 0 for success, else a failure with `answerText`. */
    const answer: int32
    const answerText: seq<byte>

    constructor (localId: seq<byte>, answer: int32, answerText: seq<byte>)
      ensures sent == [] && idRequests == 0
      ensures this.localId == localId && this.answer == answer && this.answerText == answerText
    {
      sent := [];
      idRequests := 0;
      this.localId := localId;
      this.answer := answer;
      this.answerText := answerText;
    }

    /** The `get_id` callback: a fresh block holding the id and a NUL, which
        the plugin is to free. */
    method GetId(heap: Heap) returns (p: Ptr)
      requires heap.Valid()
      modifies this, heap
      ensures heap.Valid() && p.Addr? && p.a !in old(heap.blocks)
      ensures heap.blocks == old(heap.blocks)[p.a := localId + [0]]
      ensures idRequests == old(idRequests) + 1 && sent == old(sent)
    {
      p := heap.Malloc(localId + [0]);
      idRequests := idRequests + 1;
    }

    /** The `msg` callback: the call is recorded; the answer is a success, or
        a failure whose message is a fresh C string the plugin owns. */
    method Msg(heap: Heap, peer: seq<byte>, target: seq<byte>, id: seq<byte>, content: seq<byte>) returns (r: PluginReturn)
      requires heap.Valid()
      modifies this, heap
      ensures heap.Valid() && fresh(r) && r.Owns(heap) && r.code == answer
      ensures sent == old(sent) + [Sent(peer, target, id, content)] && idRequests == old(idRequests)
      ensures answer == ERR_SUCCESS ==> heap.blocks == old(heap.blocks)
      ensures answer != ERR_SUCCESS ==>
        r.msg.Addr? && r.msg.a !in old(heap.blocks) && heap.blocks == old(heap.blocks)[r.msg.a := answerText + [0]]
    {
      sent := sent + [Sent(peer, target, id, content)];
      if answer == ERR_SUCCESS {
        r := new PluginReturn.Success();
      } else {
        r := new PluginReturn.New(heap, answer, answerText);
      }
    }
  }
}
