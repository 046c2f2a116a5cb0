/** Lossless in-order channels between two ports: the messages of a pass are appended to one,
    and a pass may receive the oldest message of the other. */
module Wires {
  import opened PdWords
  import opened PortState

  type Channel = seq<Packet>

  /** The messages among the frames of a pass, oldest first. */
  function Packets(f: Frames): Channel {
    if f.NoFrames? then [] else Packets(f.earlier) + (if f.latest.Sop? then [f.latest.packet] else [])
  }

  /** What the pass receives, if anything. */
  predicate Delivers(i: Input, k: Option<Packet>) {
    if k.None? then i.msg.None? else i.msg == Some(k.value.Encode())
  }

  /** The messages arrive in order and unchanged. */
  predicate Arrives(i: Input, c: Channel, delivery: bool) {
    if delivery then c != [] && i.msg == Some(c[0].Encode()) else i.msg.None?
  }

  function Taken(c: Channel, delivery: bool): Channel
    requires delivery ==> c != []
  {
    if delivery then c[1..] else c
  }

  function First(c: Channel, delivery: bool): Option<Packet> {
    if delivery && c != [] then Some(c[0]) else None
  }
}
