/** The integer constants of src/config.py that the core reads. Colours, audio sample
    settings and the authentication strings are rendering or I/O and are not modelled. */
module Config {
  /** SCREEN_WIDTH and SCREEN_HEIGHT, in pixels. */
  const ScreenWidth: int := 1000
  const ScreenHeight: int := 600
  /** FPS: frames per second of the export. */
  const Fps: nat := 60

  /** CHARACTER_WIDTH, CHARACTER_HEIGHT and CHARACTER_SPEED (pixels, pixels per tick). */
  const CharacterWidth: int := 40
  const CharacterHeight: int := 60
  const CharacterSpeed: int := 3

  /** Fall-back durations, in milliseconds, used when a dialogue clip's length is unknown. */
  const CollisionDialogueMs: nat := 2000
  const KiddingDialogueMs: nat := 3000
  const HeyYaDialogueMs: nat := 2000
  const FinalDialogue1Ms: nat := 2500
  const FinalDialogue2Ms: nat := 2000
  /** COLLISION_LOOP_DURATION: how long the characters bounce around. */
  const CollisionLoopMs: nat := 6000
}
