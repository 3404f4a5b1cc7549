/**
 * PowerPhoto: a photo of a power plant with plain, unchecked attributes. Only the capacity
 * setter checks anything, and it checks before it assigns.
 */
module PowerPhotos {
  import opened JavaLang
  import opened Powers

  /** PowerPhoto's own attributes. The Photo base class is not part of this model. A String
      attribute may be set to null, hence Option. */
  class PowerPhoto {
    var name: Option<string>
    var powerType: Option<string>
    var yearStartUp: int32
    var capacitySinceStart: real
    var yearCapacity: int32

    /** Both constructors, PowerPhoto() and PowerPhoto(PhotoId), give the same attributes. */
    constructor ()
      ensures name == Some("") && powerType == Some("")
      ensures yearStartUp == 0 && capacitySinceStart == 0.0 && yearCapacity == 0
    {
      name := Some("");
      powerType := Some("");
      yearStartUp := 0;
      capacitySinceStart := 0.0;
      yearCapacity := 0;
    }

    method SetName(name: Option<string>)
      modifies this
      ensures this.name == name
      ensures powerType == old(powerType) && yearStartUp == old(yearStartUp)
      ensures capacitySinceStart == old(capacitySinceStart) && yearCapacity == old(yearCapacity)
    {
      this.name := name;
    }

    /** setType */
    method SetType(powerType: Option<string>)
      modifies this
      ensures this.powerType == powerType
      ensures name == old(name) && yearStartUp == old(yearStartUp)
      ensures capacitySinceStart == old(capacitySinceStart) && yearCapacity == old(yearCapacity)
    {
      this.powerType := powerType;
    }

    /** setYearStartUp: no check, a year after the capacity year is accepted too. */
    method SetYearStartUp(yearStartUp: int32)
      modifies this
      ensures this.yearStartUp == yearStartUp
      ensures name == old(name) && powerType == old(powerType)
      ensures capacitySinceStart == old(capacitySinceStart) && yearCapacity == old(yearCapacity)
    {
      this.yearStartUp := yearStartUp;
    }

    /** setCapacitySinceStart(double, int): the year first, then the capacity. The year's
        setter throws before assigning, so a rejected year changes nothing; there is no sign
        check on either value. */
    method SetCapacitySinceStart(capacitySinceStart: real, yearCapacity: int32) returns (r: Outcome<()>)
      modifies this
      ensures r.Throw? <==> yearCapacity < yearStartUp
      ensures r.Throw? ==> r.exception == IllegalArgumentException(YEAR_CAPACITY_BEFORE_START_UP)
      ensures r.Throw? ==> this.capacitySinceStart == old(this.capacitySinceStart) && this.yearCapacity == old(this.yearCapacity)
      ensures r.Return? ==> this.capacitySinceStart == capacitySinceStart && this.yearCapacity == yearCapacity
      ensures name == old(name) && powerType == old(powerType) && yearStartUp == old(yearStartUp)
    {
      r := SetYearCapacity(yearCapacity);
      if r.Throw? {
        return;
      }
      this.capacitySinceStart := capacitySinceStart;
    }

    /** The private setYearCapacity: throws when the year is before the start-up year,
        otherwise assigns it. */
    method SetYearCapacity(yearCapacity: int32) returns (r: Outcome<()>)
      modifies this
      ensures r.Throw? <==> yearCapacity < yearStartUp
      ensures r.Throw? ==> r.exception == IllegalArgumentException(YEAR_CAPACITY_BEFORE_START_UP)
      ensures this.yearCapacity == (if r.Throw? then old(this.yearCapacity) else yearCapacity)
      ensures name == old(name) && powerType == old(powerType) && yearStartUp == old(yearStartUp)
      ensures capacitySinceStart == old(capacitySinceStart)
    {
      if yearCapacity < yearStartUp {
        return Throw(IllegalArgumentException(YEAR_CAPACITY_BEFORE_START_UP));
      }
      this.yearCapacity := yearCapacity;
      return Return(());
    }
  }

  /** Unlike Power, a PowerPhoto takes a negative capacity as long as the year is not before
      the start-up year. */
  method NegativeCapacityAccepted() returns (photo: PowerPhoto, r: Outcome<()>)
    ensures r.Return? && photo.capacitySinceStart == -1.0 && photo.yearCapacity == 0
  {
    photo := new PowerPhoto();
    r := photo.SetCapacitySinceStart(-1.0, 0);
  }
}
