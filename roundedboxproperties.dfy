/** lasercut/roundedboxproperties.py: the dimensions of a rounded box (a
    prism on a regular polygon) and of its top and bottom plates. */
module RoundedBoxProperty {
  import opened Wrappers

  const PositionOutside: string := "Outside"
  const PositionInside: string := "Inside"

  /** The longest side a face may have for `nb_face` faces around an
      inscribed circle of radius `inradius`: twice the circumradius times
      sin(pi / nb_face), less 0.01, rounded to two decimals. The
      trigonometry and the rounding are not modelled; the value is an input. */
  type SideBound = (int, real) -> real

  /** The side length `compute_information` forces: the floor of three
      quarters of the maximum, kept as a float. Below a positive maximum it
      is a whole number of millimetres in [0, maximum). */
  function ForcedSide(maxSide: real): (s: real)
    ensures s.Floor as real == s
    ensures s <= 0.75 * maxSide < s + 1.0
    ensures maxSide > 0.0 ==> 0.0 <= s < maxSide
  {
    (0.75 * maxSide).Floor as real
  }

  /** The number of cut faces, capped at the number of faces. */
  function CappedCut(cut: int, nbFace: int): (c: int)
    ensures c <= nbFace
    ensures cut <= nbFace ==> c == cut
    ensures cut > nbFace ==> c == nbFace
  {
    if cut > nbFace then nbFace else cut
  }

  /** The keyword arguments of `RoundedBoxProperties(...)`: `None` is a
      keyword that was not passed, and `cutNb` says whether a keyword
      `cut_nb` was passed. */
  datatype RoundedArgs = RoundedArgs(nbFace: Option<int>, inradius: Option<real>, height: Option<real>,
                                     thickness: Option<real>, cut: Option<int>, cutNb: bool)

  /** The attributes `make_rounded_box` reads; `cut` is `None` when the
      object has no attribute `cut`. */
  datatype RoundedDims = RoundedDims(nbFace: int, inradius: real, height: real, thickness: real,
                                     cut: Option<int>, sideLength: real, maxSideLength: real)

  class RoundedBoxProperties {
    var nbFace: int
    var inradius: real
    var height: real
    var thickness: real
    var cut: Option<int>
    var sideLength: real
    var maxSideLength: real

    /** The attribute part of `RoundedBoxProperties.__init__`, before
        `compute_information`. Its test for an attribute `cut_nb` where
        `cut` is meant resets `cut` to 0 unless `cut_nb` was passed, and
        leaves `cut` missing when `cut_nb` was passed without `cut`. */
    constructor (args: RoundedArgs)
      ensures nbFace == OrElse(args.nbFace, 5) && inradius == OrElse(args.inradius, 50.0)
      ensures height == OrElse(args.height, 30.0) && thickness == OrElse(args.thickness, 3.0)
      ensures cut == if args.cutNb then args.cut else Some(0)
      ensures sideLength == 0.0 && maxSideLength == 0.0
    {
      nbFace := OrElse(args.nbFace, 5);
      inradius := OrElse(args.inradius, 50.0);
      height := OrElse(args.height, 30.0);
      thickness := OrElse(args.thickness, 3.0);
      if args.cutNb {
        cut := args.cut;
      } else {
        cut := Some(0);
      }
      sideLength := 0.0;
      maxSideLength := 0.0;
    }

    function Dims(): (d: RoundedDims)
      reads this
      ensures d.nbFace == nbFace && d.cut == cut && d.sideLength == sideLength && d.maxSideLength == maxSideLength
      ensures d.inradius == inradius && d.height == height && d.thickness == thickness
    {
      RoundedDims(nbFace, inradius, height, thickness, cut, sideLength, maxSideLength)
    }

    /** `compute_information`: recompute the maximum side length, force
        the side length below it when asked or when it is too long, and cap
        the number of cuts. No face is a division by zero; a missing `cut`
        is an attribute error once both side lengths are stored. */
    method ComputeInformation(bound: SideBound, updateSideLength: bool) returns (r: Result<()>)
      modifies this`maxSideLength, this`sideLength, this`cut
      ensures nbFace == 0 ==> r == Err(ZeroDivisionError) && unchanged(this)
      ensures nbFace != 0 ==>
        maxSideLength == bound(nbFace, inradius) &&
        sideLength == (if updateSideLength || old(sideLength) >= maxSideLength then ForcedSide(maxSideLength)
                       else old(sideLength))
      ensures nbFace != 0 && old(cut).None? ==> r == Err(AttributeError) && cut == None
      ensures nbFace != 0 && old(cut).Some? ==> r == Ok(()) && cut == Some(CappedCut(old(cut).value, nbFace))
    {
      if nbFace == 0 {
        return Err(ZeroDivisionError);
      }
      maxSideLength := bound(nbFace, inradius);
      if updateSideLength || sideLength >= maxSideLength {
        sideLength := (maxSideLength * 0.75).Floor as real;
      }
      if cut.None? {
        return Err(AttributeError);
      }
      if cut.value > nbFace {
        cut := Some(nbFace);
      }
      return Ok(());
    }
  }

  /** `RoundedBoxProperties(...)`: the attributes, then a forced
      `compute_information`. On success the side length is the forced one,
      below a positive maximum, and the number of cuts is at most the
      number of faces. */
  method NewRoundedBoxProperties(args: RoundedArgs, bound: SideBound) returns (r: Result<RoundedBoxProperties>)
    ensures var nb := OrElse(args.nbFace, 5);
      var cut := if args.cutNb then args.cut else Some(0);
      (nb == 0 ==> r == Err(ZeroDivisionError)) &&
      (nb != 0 && cut.None? ==> r == Err(AttributeError)) &&
      (r.Ok? <==> nb != 0 && cut.Some?)
    ensures r.Ok? ==> fresh(r.value)
    ensures r.Ok? ==>
      var p := r.value;
      p.nbFace == OrElse(args.nbFace, 5) && p.inradius == OrElse(args.inradius, 50.0) &&
      p.height == OrElse(args.height, 30.0) && p.thickness == OrElse(args.thickness, 3.0) &&
      p.maxSideLength == bound(p.nbFace, p.inradius) && p.sideLength == ForcedSide(p.maxSideLength) &&
      p.cut.Some? && p.cut.value <= p.nbFace &&
      p.cut == Some(CappedCut((if args.cutNb then args.cut else Some(0)).value, p.nbFace))
  {
    var p := new RoundedBoxProperties(args);
    var done := p.ComputeInformation(bound, true);
    if done.Err? {
      return Err(done.error);
    }
    return Ok(p);
  }

  /** The keyword arguments of `TopBottomRoundedProperties(...)`. */
  datatype TopBottomRoundedArgs = TopBottomRoundedArgs(position: Option<string>, heightShift: Option<real>,
                                                       radiusOutside: Option<real>)

  datatype TopBottomRoundedProperties = TopBottomRoundedProperties(position: string, heightShift: real,
                                                                   radiusOutside: real)

  /** `TopBottomRoundedProperties.__init__`: a plate is inside by default. */
  method NewTopBottomRoundedProperties(args: TopBottomRoundedArgs) returns (r: TopBottomRoundedProperties)
    ensures r.position == OrElse(args.position, PositionInside)
    ensures r.heightShift == OrElse(args.heightShift, 0.0)
    ensures r.radiusOutside == OrElse(args.radiusOutside, 0.0)
  {
    var position := OrElse(args.position, PositionInside);
    var heightShift := OrElse(args.heightShift, 0.0);
    var radiusOutside := OrElse(args.radiusOutside, 0.0);
    r := TopBottomRoundedProperties(position, heightShift, radiusOutside);
  }
}
