/** The closed table of grain-type presets. */
module GrainTypes {
  import opened Base

  /** A grain size (the scale of the grain clumps) paired with a Gaussian smoothing strength. */
  datatype Preset = Preset(size: real, gauss: int)

  /** The presets as data: id to (size, gauss). */
  const Presets: map<int, Preset> :=
    map[1 := Preset(0.8, 63), 2 := Preset(1.0, 45), 3 := Preset(1.5, 50), 4 := Preset(1.6666, 50)]

  /** The preset for grain type `typ`; any other id is an error carrying that id. */
  function GrainType(typ: int): (r: Result<Preset, int>)
    ensures r.Ok? <==> 1 <= typ <= 4
    ensures r.Err? ==> r.error == typ
    ensures r.Ok? ==> r.value.size > 0.0 && r.value.gauss > 0
  {
    if typ == 1 then Ok(Preset(0.8, 63))          // fine
    else if typ == 2 then Ok(Preset(1.0, 45))     // fine simple
    else if typ == 3 then Ok(Preset(1.5, 50))     // coarse
    else if typ == 4 then Ok(Preset(1.6666, 50))  // coarser
    else Err(typ)
  }

  /** The branching definition agrees with the data table, key for key. */
  lemma GrainTypeIsTable(typ: int)
    ensures GrainType(typ) == if typ in Presets then Ok(Presets[typ]) else Err(typ)
  {
  }

  /** Higher ids give strictly coarser grain. */
  lemma CoarserWithId(a: int, b: int)
    requires 1 <= a < b <= 4
    ensures GrainType(a).value.size < GrainType(b).value.size
  {
  }
}
