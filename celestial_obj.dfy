/** The central body an orbit is computed around. */
module Bodies {

  /** Mass in kg and radius in km. */
  datatype CelestialObj = CelestialObj(mass: real, radius: real)

  /** The Earth: 5.972e24 kg and 6378.137 km. */
  const Earth: CelestialObj := CelestialObj(5972000000000000000000000.0, 6378.137)
}
