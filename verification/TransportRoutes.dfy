/** The door through which another environment hands packages in, and the sender that knocks at it. */
module TransportRoutes {
  import opened Options
  import opened Transfers

  /** The door of one environment, for one package of one origin. */
  class TransportInbound {
    /** What came so far, when there is a file of it. */
    var part: Option<Bytes>
    /** The package, once it was taken in. */
    var here: Option<Bytes>

    ghost function Abs(): Door
      reads this
    {
      Door(part, here)
    }

    constructor (part: Option<Bytes>, here: Option<Bytes>)
      ensures Abs() == Door(part, here)
    {
      this.part, this.here := part, here;
    }

    method Received() returns (n: nat)
      ensures n == |Arrived(Abs())|
    {
      n := if part.Some? then |part.value| else 0;
    }

    /** A part, written after what already arrived. */
    method Part(offset: nat, body: Bytes) returns (ok: bool, received: nat)
      modifies this`part
      ensures (Abs(), ok) == WithPart(old(Abs()), offset, body)
      ensures received == |Arrived(Abs())|
    {
      var have := if part.Some? then |part.value| else 0;
      if offset == 0 && have > 0 {
        part := None;
        have := 0;
      }
      if offset != have {
        return false, have;
      }
      if have + |body| > MAX_PACKAGE {
        return false, have;
      }
      part := Some((if part.Some? then part.value else []) + body);
      return true, have + |body|;
    }

    /** Everything arrived. */
    method Complete(size: nat, digest: Bytes, welcome: bool) returns (reply: Reply)
      modifies this
      ensures (Abs(), reply) == Completed(old(Abs()), size, digest, welcome)
      ensures old(here).Some? ==> reply == AlreadyHere && here == old(here) && part == old(part)
      ensures old(here) == None ==> part == None && (reply == Taken <==> old(part) == Some(digest) && size == |digest| && welcome)
      ensures old(here) == None ==> here == (if reply == Taken then Some(digest) else None) && (reply == Taken || reply == NotTaken)
    {
      if here.Some? {
        return AlreadyHere;
      }
      if part.None? {
        return NotTaken;
      }
      var bytes := part.value;
      part := None;
      if |bytes| != size || bytes != digest {
        return NotTaken;
      }
      if !welcome {
        return NotTaken;
      }
      here := Some(bytes);
      return Taken;
    }
  }

  /**
   * One attempt that nothing disturbs. It picks up where a former one stopped, and delivers the package
   * exactly when the other side has it already, or can take it: it is not too long and welcome, and something
   * of it arrives, which is not so of an empty file.
   */
  method Run(file: Bytes, door: TransportInbound, welcome: bool) returns (delivered: bool, ghost sent: nat)
    requires DoorOk(door.Abs(), file)
    modifies door
    ensures DoorOk(door.Abs(), file)
    ensures delivered <==> old(door.here).Some? || ((file != [] || old(door.part).Some?) && |file| <= 512 * 1024 * 1024 && welcome)
    ensures delivered ==> door.here == Some(file) && sent == if old(door.here).Some? then 0 else |file| - |Arrived(old(door.Abs()))|
  {
    var offset := door.Received();
    if door.here.Some? {
      offset := |file|;
    } else if offset > |file| {
      offset := 0;
    }
    sent := 0;
    while offset < |file|
      invariant offset <= |file| && door.here == old(door.here)
      invariant sent == if door.here.Some? then 0 else offset - |Arrived(old(door.Abs()))|
      invariant door.here == None ==> offset <= MAX_PACKAGE && Arrived(door.Abs()) == file[..offset]
      invariant door.here == None && (offset > 0 || file == []) ==> (door.part.Some? <==> file != [] || old(door.part).Some?)
      invariant door.here.Some? ==> offset == |file| && door.Abs() == old(door.Abs())
      decreases |file| - offset
    {
      var body := file[offset..offset + Size(file, offset)];
      var ok, received := door.Part(offset, body);
      if !ok {
        assert Arrived(door.Abs()) == file[..offset];
        return false, sent;
      }
      sent := sent + |body|;
      assert file[..offset] + body == file[..offset + Size(file, offset)];
      offset := offset + Size(file, offset);
    }
    assert file[..|file|] == file;
    var reply := door.Complete(|file|, file, welcome);
    delivered := !reply.NotTaken?;
  }
}
