/**
 * The parameter catalogue (`CANID_INFO`): the name and unit the CANaerospace
 * specification gives to each CAN identifier the logs are known to carry.
 * The dictionary literal is split into groups of neighbouring identifiers,
 * following its own section comments.
 */
module ParameterCatalog {
  import opened Wrappers

  /** A catalogued parameter: a name that is never the placeholder `Unknown`, and a non-empty unit. */
  predicate Described(e: (string, string))
  {
    e.0 != "Unknown" && e.1 != ""
  }

  /** Flight dynamics: body motion, control surfaces and air data, identifiers 0x12C to 0x13F. */
  function BodyMotionAndAirData(id: int): (r: Option<(string, string)>)
    ensures r.Some? ==> 0x12C <= id <= 0x13F && Described(r.value)
  {
    match id
    case 0x12C => Some(("Body Longitudinal Acceleration", "m/s\U{00B2}"))
    case 0x12D => Some(("Body Lateral Acceleration", "m/s\U{00B2}"))
    case 0x12E => Some(("Body Normal Acceleration", "m/s\U{00B2}"))
    case 0x12F => Some(("Body Pitch Rate", "deg/s"))
    case 0x130 => Some(("Body Roll Rate", "deg/s"))
    case 0x131 => Some(("Body Yaw Rate", "deg/s"))
    case 0x132 => Some(("Rudder Position", "deg"))
    case 0x133 => Some(("Stabilizer Position", "deg"))
    case 0x134 => Some(("Elevator Position", "deg"))
    case 0x135 => Some(("Left Aileron Position", "deg"))
    case 0x136 => Some(("Right Aileron Position", "deg"))
    case 0x137 => Some(("Body Pitch Angle", "deg"))
    case 0x138 => Some(("Body Roll Angle", "deg"))
    case 0x139 => Some(("Body Sideslip", "deg"))
    case 0x13A => Some(("Altitude Rate", "m/s"))
    case 0x13B => Some(("Indicated Airspeed", "m/s"))
    case 0x13C => Some(("True Airspeed", "m/s"))
    case 0x13D => Some(("Calibrated Airspeed", "m/s"))
    case 0x13E => Some(("Mach Number", "Mach"))
    case 0x13F => Some(("Baro Correction", "hPa"))
    case _ => None
  }

  /** Flight dynamics: altitude, atmosphere and high-lift devices, identifiers 0x140 to 0x15C. */
  function AltitudeAndAtmosphere(id: int): (r: Option<(string, string)>)
    ensures r.Some? ==> 0x140 <= id <= 0x15C && Described(r.value)
  {
    match id
    case 0x140 => Some(("Baro Corrected Altitude", "m"))
    case 0x141 => Some(("Heading Angle", "deg"))
    case 0x142 => Some(("Standard Altitude", "m"))
    case 0x143 => Some(("Total Air Temperature", "K"))
    case 0x144 => Some(("Static Air Temperature", "K"))
    case 0x145 => Some(("Differential Pressure", "hPa"))
    case 0x146 => Some(("Static Pressure", "hPa"))
    case 0x147 => Some(("Heading Rate", "deg/s"))
    case 0x148 => Some(("Port Side Angle Of Attack", "deg"))
    case 0x149 => Some(("Starbord Side Angle Of Attack", "deg"))
    case 0x14A => Some(("Density Altitude", "m"))
    case 0x14B => Some(("Turn Coordination Rate", "deg/s"))
    case 0x14C => Some(("True Altitude", "m"))
    case 0x14D => Some(("Wind Speed", "m/s"))
    case 0x14E => Some(("Wind Direction", "deg"))
    case 0x14F => Some(("Outside Air Temperature", "K"))
    case 0x150 => Some(("Body Normal Velocity", "m/s"))
    case 0x151 => Some(("Body Longitudinal Velocity", "m/s"))
    case 0x152 => Some(("Body Lateral Velocity", "m/s"))
    case 0x153 => Some(("Total Pressure", "hPa"))
    case 0x154 => Some(("Flaps position", "deg"))
    case 0x156 => Some(("Speed brake position", "deg"))
    case 0x159 => Some(("Vertical speed of the airmass", "m/s"))
    case 0x15C => Some(("TEK altitude rate", "m/s"))
    case _ => None
  }

  /** Flight controls: stick, pedal and collective positions and trim commands, identifiers 0x190 to 0x197. */
  function PilotControls(id: int): (r: Option<(string, string)>)
    ensures r.Some? ==> 0x190 <= id <= 0x197 && Described(r.value)
  {
    match id
    case 0x190 => Some(("Pitch Control Position", "deg"))
    case 0x191 => Some(("Roll Control Position", "deg"))
    case 0x192 => Some(("Lateral Stick Trim Position Command", "deg"))
    case 0x193 => Some(("Yaw Control Position", "deg"))
    case 0x194 => Some(("Collective Control Position", "deg"))
    case 0x195 => Some(("Longitudinal Stick Trim Position Command", "deg"))
    case 0x196 => Some(("Directional Pedals Trim Position Command", "deg"))
    case 0x197 => Some(("Collective Lever Trim Position Command", "deg"))
    case _ => None
  }

  /** Flight controls: stick switches, trim speeds, nose wheel steering and throttles, identifiers 0x198 to 0x19F. */
  function SwitchesTrimAndThrottles(id: int): (r: Option<(string, string)>)
    ensures r.Some? ==> 0x198 <= id <= 0x19F && Described(r.value)
  {
    match id
    case 0x198 => Some(("Cyclic Control Stick Switches", "enum"))
    case 0x199 => Some(("Lateral Trim Speed", "deg/s"))
    case 0x19A => Some(("Longitudinal Trim Speed", "deg/s"))
    case 0x19B => Some(("Pedal Trim Speed", "deg/s"))
    case 0x19C => Some(("Collective Trim Speed", "deg/s"))
    case 0x19D => Some(("Nose Wheel Steering Handle Position", "deg"))
    case 0x19E => Some(("Engine 1 Throttle Lever Position Ecs Channel A", "%"))
    case 0x19F => Some(("Engine 2 Throttle Lever Position Ecs Channel A", "%"))
    case _ => None
  }

  /** Flight controls: levers, brake pedals, switches and warnings, identifiers 0x1AE to 0x1BA. */
  function LeversAndSwitches(id: int): (r: Option<(string, string)>)
    ensures r.Some? ==> 0x1AE <= id <= 0x1BA && Described(r.value)
  {
    match id
    case 0x1AE => Some(("Flaps Lever Position", "deg"))
    case 0x1AF => Some(("Slats Lever Position", "deg"))
    case 0x1B0 => Some(("Park Brake Lever Position", "enum"))
    case 0x1B1 => Some(("Speedbrake Lever Position", "deg"))
    case 0x1B2 => Some(("Throttle Max Lever Position", "%"))
    case 0x1B3 => Some(("Pilot Left Brake Pedal Position", "%"))
    case 0x1B4 => Some(("Pilot Right Brake Pedal Position", "%"))
    case 0x1B5 => Some(("Copilot Left Brake Pedal Position", "%"))
    case 0x1B6 => Some(("Copilot Right Brake Pedal Position", "%"))
    case 0x1B7 => Some(("Trim System Switches", "enum"))
    case 0x1B8 => Some(("Trim System Lights", "enum"))
    case 0x1B9 => Some(("Collective Control Stick Switches", "enum"))
    case 0x1BA => Some(("Stick Shaker Stall Warning Device", "enum"))
    case _ => None
  }

  /** Propulsion and engine, identifiers 0x1F4 to 0x2BB. */
  function Propulsion(id: int): (r: Option<(string, string)>)
    ensures r.Some? ==> 0x1F4 <= id <= 0x2BB && Described(r.value)
  {
    match id
    case 0x1F4 => Some(("Engine 1 N1 Ecs Channel A", "%"))
    case 0x1F5 => Some(("Engine 2 N1 Ecs Channel A", "%"))
    case 0x294 => Some(("Fuel Pump 1 Flow Rate", "L/h"))
    case 0x295 => Some(("Fuel Pump 2 Flow Rate", "L/h"))
    case _ => None
  }

  /** Electrical and hydraulic systems, identifiers 0x320 to 0x3CF. */
  function ElectricalHydraulic(id: int): (r: Option<(string, string)>)
    ensures r.Some? ==> 0x320 <= id <= 0x3CF && Described(r.value)
  {
    match id
    case 0x320 => Some(("Hydraulic System 1 Pressure", "kPa"))
    case 0x321 => Some(("Hydraulic System 2 Pressure", "kPa"))
    case _ => None
  }

  /** Navigation: the active navigation system, identifiers 0x3E8 to 0x3F3. */
  function ActiveNavSystem(id: int): (r: Option<(string, string)>)
    ensures r.Some? ==> 0x3E8 <= id <= 0x3F3 && Described(r.value)
  {
    match id
    case 0x3E8 => Some(("Active Nav System Waypoint Latitude", "deg"))
    case 0x3E9 => Some(("Active Nav System Waypoint Longitude", "deg"))
    case 0x3EA => Some(("Active Nav System Waypoint Height Above Ellipsoid", "m"))
    case 0x3EB => Some(("Active Nav System Waypoint Altitude", "m"))
    case 0x3EC => Some(("Active Nav System Ground Speed", "m/s"))
    case 0x3ED => Some(("Active Nav System True Track", "deg"))
    case 0x3EE => Some(("Active Nav System Magnetic Track", "deg"))
    case 0x3EF => Some(("Active Nav System Cross Track Error", "m"))
    case 0x3F0 => Some(("Active Nav System Track Error Angle", "deg"))
    case 0x3F1 => Some(("Active Nav System Time To Go", "s"))
    case 0x3F2 => Some(("Active Nav System Estimated Time Of Arrival", "timestamp"))
    case 0x3F3 => Some(("Active Nav System Estimated Enroute Time", "s"))
    case _ => None
  }

  /** Navigation: the GPS receiver, identifiers 0x3F4 to 0x44F. */
  function Gps(id: int): (r: Option<(string, string)>)
    ensures r.Some? ==> 0x3F4 <= id <= 0x44F && Described(r.value)
  {
    match id
    case 0x3F4 => Some(("Gps Aircraft Latitude", "deg"))
    case 0x3F5 => Some(("Gps Aircraft Longitude", "deg"))
    case 0x3F6 => Some(("Gps Aircraft Height Above Ellipsoid", "m"))
    case 0x3F7 => Some(("Gps Ground Speed", "m/s"))
    case 0x3F8 => Some(("Gps True Track", "deg"))
    case 0x3F9 => Some(("Gps Magnetic Track", "deg"))
    case 0x3FA => Some(("Gps Cross Track Error", "m"))
    case 0x3FB => Some(("Gps Track Error Angle", "deg"))
    case 0x3FC => Some(("Gps Glideslope Deviation", "deg"))
    case 0x3FD => Some(("Gps Predicted Raim", "enum"))
    case 0x3FE => Some(("Gps Vertical Figure Of Merit", "m"))
    case 0x3FF => Some(("Gps Horizontal Figure Of Merit", "m"))
    case 0x400 => Some(("Gps Mode Of Operation", "enum"))
    case _ => None
  }

  /** Time and miscellaneous, identifiers 0x4B0 to 0x4B6. */
  function TimeAndCabin(id: int): (r: Option<(string, string)>)
    ensures r.Some? ==> 0x4B0 <= id <= 0x4B6 && Described(r.value)
  {
    match id
    case 0x4B0 => Some(("Utc", "timestamp"))
    case 0x4B1 => Some(("Cabin Pressure", "hPa"))
    case 0x4B2 => Some(("Cabin Altitude", "m"))
    case 0x4B3 => Some(("Cabin Temperature", "\U{00B0}C"))
    case 0x4B4 => Some(("Longitudinal Center Of Gravity", "m"))
    case 0x4B5 => Some(("Lateral Center Of Gravity", "m"))
    case 0x4B6 => Some(("Date", "date"))
    case _ => None
  }

  /** `CANID_INFO.get(can_id)`: the entry of an identifier, from whichever group holds it. */
  function Entry(id: int): (r: Option<(string, string)>)
    ensures r.Some? ==> 0x12C <= id <= 0x4B6 && Described(r.value)
  {
    if id <= 0x13F then BodyMotionAndAirData(id)
    else if id <= 0x15C then AltitudeAndAtmosphere(id)
    else if id <= 0x197 then PilotControls(id)
    else if id <= 0x19F then SwitchesTrimAndThrottles(id)
    else if id <= 0x1BA then LeversAndSwitches(id)
    else if id <= 0x2BB then Propulsion(id)
    else if id <= 0x3CF then ElectricalHydraulic(id)
    else if id <= 0x3F3 then ActiveNavSystem(id)
    else if id <= 0x44F then Gps(id)
    else TimeAndCabin(id)
  }

  /** `CANID_INFO.get(can_id, ("Unknown", ""))`. */
  function Describe(id: int): (r: (string, string))
    ensures r == ("Unknown", "") <==> Entry(id).None?
    ensures Entry(id).Some? ==> r == Entry(id).value
  {
    if Entry(id).Some? then Entry(id).value else ("Unknown", "")
  }

  /** An identifier is catalogued exactly when its name is not `Unknown`, and exactly when its unit is not empty. */
  lemma UnknownMeansUncatalogued(id: int)
    ensures Describe(id).0 == "Unknown" <==> Entry(id).None?
    ensures Describe(id).1 == "" <==> Entry(id).None?
  {
  }

  /** Identifiers outside 0x12C to 0x4B6 are never catalogued. */
  lemma OutsideRangeIsUnknown(id: int)
    requires id < 0x12C || 0x4B6 < id
    ensures Describe(id) == ("Unknown", "")
  {
  }

  /** The flaps position (0x154) is in degrees; its neighbour 0x155 is not catalogued. */
  lemma FlapsExample()
    ensures Describe(0x154) == ("Flaps position", "deg")
    ensures Describe(0x155) == ("Unknown", "")
  {
  }
}
