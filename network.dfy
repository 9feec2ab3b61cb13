/** The host-to-client messages of the session and the broadcast primitive
    `NetworkServer.SendToAll`, modelled as an append to an outbox. */
module Network {
  import opened Numerics

  /** Message type identifiers (CloudAnchorController.cs). */
  const MessageId: int := 1092
  const RotationId: int := 1094
  const StartSessionId: int := 1095

  datatype Payload =
    | UpdateHost(list: seq<Vec3>, texture: string, identifier: string)
    | UpdateRotation(rotation: Quaternion)
    | StartSession(cloudId: Option<string>)

  datatype Message = Message(msgType: int, payload: Payload)

  /** Everything broadcast so far, oldest first. */
  class Outbox {
    var sent: seq<Message>

    constructor ()
      ensures sent == []
    {
      sent := [];
    }

    /** `NetworkServer.SendToAll(msgType, payload)`. */
    method SendToAll(msgType: int, payload: Payload)
      modifies this
      ensures sent == old(sent) + [Message(msgType, payload)]
    {
      sent := sent + [Message(msgType, payload)];
    }
  }
}
