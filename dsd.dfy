/** The part of a DropSizeDistribution object that the CSV exporters read
    and change. The class itself (its construction, moments, fits and
    scattering) is not part of this model; only the attributes below are. */
module Dsd {
  import opened Common

  /** The attributes of a DropSizeDistribution at one moment. time holds the
      entries of time['data'] as integer epoch seconds. */
  datatype DsdState = DsdState(time: seq<int>, fields: map<string, VarDict>, info: map<string, string>,
                               scatteringFreq: real, scatteringTemp: real)

  class DropSizeDistribution {
    var time: seq<int>
    var fields: map<string, VarDict>
    var info: map<string, string>
    /** scattering_freq, in Hz. */
    var scatteringFreq: real
    /** scattering_temp, in degrees Celsius. */
    var scatteringTemp: real

    constructor (s: DsdState)
      ensures State() == s
    {
      time := s.time;
      fields := s.fields;
      info := s.info;
      scatteringFreq := s.scatteringFreq;
      scatteringTemp := s.scatteringTemp;
    }

    function State(): (s: DsdState)
      reads this
      ensures s.time == time && s.fields == fields && s.info == info
      ensures s.scatteringFreq == scatteringFreq && s.scatteringTemp == scatteringTemp
    {
      DsdState(time, fields, info, scatteringFreq, scatteringTemp)
    }
  }
}
