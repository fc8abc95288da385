/**
 * The user's map settings: the colour of the route line, the map type and the
 * transport type, as chosen on the settings screen.
 */
module Preferences {
  /** The five route-line colours the settings screen offers. */
  datatype Colour = Red | Blue | Green | Yellow | Orange

  /**
   * A record with no behaviour. Its only initializer takes non-optional
   * arguments, so every field holds a value once it is built.
   */
  datatype MapPreferences = MapPreferences(polylineColour: Colour, mapType: string, transportType: string)
}
