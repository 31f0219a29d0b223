/** The compile-time constants of main.cpp that the game logic uses. */
module Constants {

  /** FIXED_TIMESTEP: seconds of simulated time per step (a float in the game). */
  const FIXED_TIMESTEP: real := 0.0166666

  /** PLATFORM_COUNT: ten floor tiles followed by two moving platforms. */
  const PLATFORM_COUNT: nat := 12

  /** ENEMIES_COUNT: the slimes; touching any one of them wins. */
  const ENEMIES_COUNT: nat := 6

  /** FONTBANK_SIZE: the font texture is a 16 by 16 grid of glyphs. */
  const FONTBANK_SIZE: nat := 16

  /** FUEL_AMOUNT: the fuel the player starts with. */
  const FUEL_AMOUNT: int := 5000
}
