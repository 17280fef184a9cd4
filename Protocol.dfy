/** The messages exchanged over the `/audioStream` websocket, as values:
    what the client adapter sends, what the audio server sends back, and the
    feature frame the server publishes for every processed chunk. The JSON
    text itself is not modelled; a message is its parsed value. */
module Protocol {
  import opened AudioUtils

  /** The object the server emits on `streaming`, field by field under the
      names it carries on the wire. */
  datatype FeatureFrame = FeatureFrame(
    averageFrequency: real,
    dominantFrequency: Peak,
    bassAmplitude: real,
    rms_db: real,
    closestNote: string,
    analyzer: seq<real>,
    AmplituteMultiplayer: real,
    waveform: seq<int>)

  /** Client to server: `{type: 'getDevices'}` or
      `{type: 'subscribe', data: {sampleRate, frameSize, audioDeviceID}}`. */
  datatype ClientMessage =
    | GetDevices
    | Subscribe(sampleRate: real, frameSize: real, audioDeviceID: int)

  /** Server to client: `{type: 'streaming', data}`, `{type: 'devices', data}`
      or a message of any other type. */
  datatype ServerMessage =
    | Streaming(frame: FeatureFrame)
    | Devices(devices: seq<Device>)
    | OtherMessage(kind: string)
}
