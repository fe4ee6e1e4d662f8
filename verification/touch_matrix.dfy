/** The stand-alone 3x3 keypad reducer: it asks the touch driver it was
    built with for the normalised point and reduces it with that driver's
    width and height, changing no state of its own. */
module TouchMatrix {
  import opened Wrappers
  import Zones
  import opened TouchpadDriver

  class Matrix {
    const displayDrv: Touchpad

    constructor (displayDrv: Touchpad)
      ensures this.displayDrv == displayDrv
    {
      this.displayDrv := displayDrv;
    }

    /** No code when the driver is not ready or reports no touch; otherwise
        the zone code of the driver's point, which is exactly what the
        driver's own reducer answers for the same poll. */
    function Read(reading: Reading): (r: Option<int>)
      reads displayDrv
      ensures r.None? <==> displayDrv.GetTouched(reading).Failure? || displayDrv.GetTouched(reading).value.None?
      ensures r.Some? ==>
        && 1 <= r.value <= 9
        && r.value == Zones.ZoneCode(displayDrv.width, displayDrv.height,
                                     displayDrv.GetTouched(reading).value.value.x,
                                     displayDrv.GetTouched(reading).value.value.y)
      ensures r == displayDrv.Read(reading)
    {
      match displayDrv.GetTouched(reading)
      case Failure(_) => None
      case Success(None) => None
      case Success(Some(p)) =>
        if p.x < displayDrv.width / 3 then
          if p.y < displayDrv.height / 3 then Some(7)
          else if p.y > displayDrv.height * 2 / 3 then Some(1)
          else Some(4)
        else if p.x > displayDrv.width * 2 / 3 then
          if p.y < displayDrv.height / 3 then Some(9)
          else if p.y > displayDrv.height * 2 / 3 then Some(3)
          else Some(6)
        else
          if p.y < displayDrv.height / 3 then Some(8)
          else if p.y > displayDrv.height * 2 / 3 then Some(2)
          else Some(5)
    }
  }
}
