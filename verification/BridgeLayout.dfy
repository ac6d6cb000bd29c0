/** The shared region of one Bridge, as the driver and the Worker both see it. */
module BridgeLayout {
  const RING: nat := 6          // kBridgeRing: blocks per ring
  const PLACES: nat := 4        // kBridgeClients: client places
  const CHANNELS: nat := 64     // kBridgeChannels
  const FRAMES: nat := 1024     // kBridgeFrames: frames per block at most
}
