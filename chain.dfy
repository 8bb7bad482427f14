/**
 * The connection sets the processor builds, as values: the pass-through that
 * initialiseGraph wires, and the linear chain
 * audio in -> node 1 -> ... -> node k -> audio out (channels 0 and 1 on every
 * hop) plus the MIDI in -> MIDI out link that processText wires.
 */
module Chain {
  import opened ProcessorGraph

  /** The ids of the four terminal nodes (audioInputNode, audioOutputNode, midiInputNode, midiOutputNode). */
  datatype Terminals = Terminals(audioIn: NodeId, audioOut: NodeId, midiIn: NodeId, midiOut: NodeId)

  /** One audio connection, same channel on both ends. */
  function AudioLink(from: NodeId, to: NodeId, channel: int): Connection
  {
    Connection(Endpoint(from, channel), Endpoint(to, channel))
  }

  /** One hop of the chain: channels 0 and 1 from `from` to `to`. */
  function Hop(from: NodeId, to: NodeId): set<Connection>
  {
    {AudioLink(from, to, 0), AudioLink(from, to, 1)}
  }

  /** The hops along a path of node ids, in order. */
  function Hops(path: seq<NodeId>): set<Connection>
    decreases |path|
  {
    if |path| < 2 then {}
    else Hops(path[..|path| - 1]) + Hop(path[|path| - 2], path[|path| - 1])
  }

  /** Extending a path by one node adds exactly that node's hop. */
  lemma HopsSnoc(path: seq<NodeId>, x: NodeId)
    requires |path| > 0
    ensures Hops(path + [x]) == Hops(path) + Hop(path[|path| - 1], x)
  {
    assert (path + [x])[..|path|] == path;
  }

  /** The MIDI pass-through connection. */
  function MidiLink(t: Terminals): Connection
  {
    Connection(Endpoint(t.midiIn, MidiChannelIndex), Endpoint(t.midiOut, MidiChannelIndex))
  }

  /** What initialiseGraph wires: audio in to audio out on channels 0 and 1, and MIDI in to MIDI out. */
  function PassThrough(t: Terminals): set<Connection>
  {
    {AudioLink(t.audioIn, t.audioOut, 0), AudioLink(t.audioIn, t.audioOut, 1), MidiLink(t)}
  }

  /** The audio path through a chain of effect nodes. */
  function ChainPath(t: Terminals, chain: seq<NodeId>): seq<NodeId>
  {
    [t.audioIn] + chain + [t.audioOut]
  }

  /** What a completed rewiring leaves: the chain's hops and the MIDI link. */
  function Wiring(t: Terminals, chain: seq<NodeId>): set<Connection>
  {
    Hops(ChainPath(t, chain)) + {MidiLink(t)}
  }

  ghost predicate Distinct(s: seq<NodeId>)
  {
    forall i, j | 0 <= i < j < |s| :: s[i] != s[j]
  }

  /** c is the channel-0 or channel-1 connection of some hop of the path. */
  ghost predicate IsHopOf(path: seq<NodeId>, c: Connection)
  {
    && c.source.channelIndex in {0, 1}
    && exists i | 0 <= i < |path| - 1 :: c == AudioLink(path[i], path[i + 1], c.source.channelIndex)
  }

  /** The hops of a path are exactly the two-channel links between neighbours. */
  lemma {:induction false} HopsMembership(path: seq<NodeId>, c: Connection)
    ensures c in Hops(path) <==> IsHopOf(path, c)
    decreases |path|
  {
    if |path| >= 2 {
      var n := |path|;
      var front := path[..n - 1];
      HopsMembership(front, c);
      if c in Hops(front) {
        var i :| 0 <= i < |front| - 1 &&
          c == AudioLink(front[i], front[i + 1], c.source.channelIndex);
        assert front[i] == path[i] && front[i + 1] == path[i + 1];
      } else if c in Hop(path[n - 2], path[n - 1]) {
        assert n - 2 < |path| - 1;
      }
      if IsHopOf(path, c) {
        var i :| 0 <= i < |path| - 1 &&
          c == AudioLink(path[i], path[i + 1], c.source.channelIndex);
        if i < n - 2 {
          assert front[i] == path[i] && front[i + 1] == path[i + 1];
          assert IsHopOf(front, c);
        }
      }
    }
  }

  /** A path of k distinct nodes has 2·(k-1) connections: two per hop, none shared. */
  lemma {:induction false} HopsCount(path: seq<NodeId>)
    requires |path| >= 1 && Distinct(path)
    ensures |Hops(path)| == 2 * (|path| - 1)
    decreases |path|
  {
    if |path| >= 2 {
      var n := |path|;
      var front := path[..n - 1];
      assert Distinct(front);
      HopsCount(front);
      var hop := Hop(path[n - 2], path[n - 1]);
      assert AudioLink(path[n - 2], path[n - 1], 0) != AudioLink(path[n - 2], path[n - 1], 1);
      assert |hop| == 2;
      forall c | c in Hops(front) ensures c !in hop {
        HopsMembership(front, c);
        var i :| 0 <= i < |front| - 1 &&
          c == AudioLink(front[i], front[i + 1], c.source.channelIndex);
        assert c.destination.nodeId == path[i + 1] != path[n - 1];
      }
      assert Hops(front) * hop == {};
    }
  }

  /**
   * Along a path of distinct nodes, a connection leaving the i-th node goes to
   * the (i+1)-th on the channel it left on: the hops form one path, in order.
   */
  lemma HopsLeaveForward(path: seq<NodeId>, c: Connection, i: nat)
    requires Distinct(path)
    requires c in Hops(path)
    requires i < |path| && c.source.nodeId == path[i]
    ensures i + 1 < |path|
    ensures c.source.channelIndex in {0, 1}
    ensures c == AudioLink(path[i], path[i + 1], c.source.channelIndex)
  {
    HopsMembership(path, c);
    var k :| 0 <= k < |path| - 1 &&
      c == AudioLink(path[k], path[k + 1], c.source.channelIndex);
    assert path[k] == path[i];
  }

  /**
   * Along a path of distinct nodes, a connection arriving at the j-th node
   * comes from the (j-1)-th: nothing enters the first node.
   */
  lemma HopsEnterBackward(path: seq<NodeId>, c: Connection, j: nat)
    requires Distinct(path)
    requires c in Hops(path)
    requires j < |path| && c.destination.nodeId == path[j]
    ensures 0 < j
    ensures c.destination.channelIndex in {0, 1}
    ensures c == AudioLink(path[j - 1], path[j], c.destination.channelIndex)
  {
    HopsMembership(path, c);
    var k :| 0 <= k < |path| - 1 &&
      c == AudioLink(path[k], path[k + 1], c.source.channelIndex);
    assert path[k + 1] == path[j];
  }

  /** Every connection of a chain path joins two nodes of that path. */
  lemma HopsWithinPath(path: seq<NodeId>, c: Connection)
    requires c in Hops(path)
    ensures c.source.nodeId in path && c.destination.nodeId in path
  {
    HopsMembership(path, c);
    var k :| 0 <= k < |path| - 1 &&
      c == AudioLink(path[k], path[k + 1], c.source.channelIndex);
  }

  /** The only MIDI connection of a wired chain is the MIDI link; the rest are channel 0 or 1. */
  lemma WiringMidi(t: Terminals, chain: seq<NodeId>, c: Connection)
    requires c in Wiring(t, chain)
    ensures c.source.channelIndex == MidiChannelIndex <==> c == MidiLink(t)
    ensures c != MidiLink(t) ==> c.source.channelIndex in {0, 1} && c.destination.channelIndex == c.source.channelIndex
  {
    if c != MidiLink(t) {
      HopsMembership(ChainPath(t, chain), c);
    }
  }

  /** With k effect nodes and distinct ids, a wired chain has 2·(k+1) audio connections and the MIDI link. */
  lemma WiringCount(t: Terminals, chain: seq<NodeId>)
    requires Distinct(ChainPath(t, chain))
    ensures |Hops(ChainPath(t, chain))| == 2 * (|chain| + 1)
    ensures MidiLink(t) !in Hops(ChainPath(t, chain))
    ensures |Wiring(t, chain)| == 2 * (|chain| + 1) + 1
  {
    var path := ChainPath(t, chain);
    HopsCount(path);
    HopsMembership(path, MidiLink(t));
  }

  /** Rewiring with no effect nodes gives back exactly what initialiseGraph wires. */
  lemma PassThroughIsEmptyChain(t: Terminals)
    ensures Wiring(t, []) == PassThrough(t)
  {
    var path := ChainPath(t, []);
    assert path == [t.audioIn, t.audioOut];
    assert path[..1] == [t.audioIn];
    assert Hops(path[..1]) == {};
    assert Hops(path) == Hop(t.audioIn, t.audioOut);
  }

  /** initialiseGraph leaves exactly three connections. */
  lemma PassThroughCount(t: Terminals)
    ensures |PassThrough(t)| == 3
  {
    var a0, a1 := AudioLink(t.audioIn, t.audioOut, 0), AudioLink(t.audioIn, t.audioOut, 1);
    assert a0 != a1 && a0 != MidiLink(t) && a1 != MidiLink(t);
  }
}
