/** Validation and translation of DVB-S2/S2X/T2 parameters into the names of
    the C++ definitions (python/params.py). The definition tables are a
    `Defs` value: the standards, frame sizes, constellations, LDPC codes,
    roll-offs and pilot settings known to the receiver. */
module Params {

  datatype Option<T> = None | Some(value: T)

  datatype Result<T, E> = Ok(value: T) | Err(error: E)

  /** The Python exceptions translation can raise. */
  datatype PyError = ValueError | AssertionError | KeyError | IndexError | TypeError

  /** The object passed as `pilots`: a Python bool, or an object of another
      type (an int, a string, ...). */
  datatype PilotsArg = PyBool(flag: bool) | NonBool

  /** The 'vl-snr' entry of an LDPC code: one flag, or one flag per code
      definition. */
  datatype VlSnrEntry = VlFlag(flag: bool) | VlModes(modes: seq<bool>)

  /** The 'def' entry of an LDPC code: one C++ name, or one per
      (frame size, VL-SNR mode) combination. */
  datatype CodeName = Single(name: string) | PerMode(names: seq<string>)

  datatype ConstellationDef = ConstellationDef(standard: seq<string>, cppDef: string)

  datatype RolloffDef = RolloffDef(standard: seq<string>, cppDef: string)

  datatype CodeDef = CodeDef(standard: seq<string>, frame: seq<string>, vlSnr: Option<VlSnrEntry>, cppDef: CodeName)

  datatype Defs = Defs(
    standards: map<string, string>,
    frameSizes: map<string, string>,
    constellations: map<string, ConstellationDef>,
    ldpcCodes: map<string, CodeDef>,
    rolloffs: map<real, RolloffDef>,
    pilots: map<bool, string>)

  /** The name `eval` resolves inside the C++ module. */
  function Qualified(name: string): (q: string)
    ensures |q| == |name| + 8
    ensures q[..8] == "dvbs2rx." && q[8..] == name
  {
    "dvbs2rx." + name
  }

  // Case conventions (ASCII letters)

  predicate IsLower(c: char) { 'a' <= c <= 'z' }

  predicate IsUpper(c: char) { 'A' <= c <= 'Z' }

  function UpperChar(c: char): (u: char)
    ensures !IsLower(u)
    ensures IsLower(c) ==> IsUpper(u) && u as int == c as int - 32
    ensures !IsLower(c) ==> u == c
  {
    if IsLower(c) then (c as int - 32) as char else c
  }

  function LowerChar(c: char): (lc: char)
    ensures !IsUpper(lc)
    ensures IsUpper(c) ==> IsLower(lc) && lc as int == c as int + 32
    ensures !IsUpper(c) ==> lc == c
  {
    if IsUpper(c) then (c as int + 32) as char else c
  }

  /** Python's str.upper on ASCII text: each character upper-cased. */
  function Upper(s: string): (r: string)
    ensures |r| == |s|
    ensures forall i :: 0 <= i < |s| ==> r[i] == UpperChar(s[i])
  {
    if s == [] then [] else [UpperChar(s[0])] + Upper(s[1..])
  }

  /** Python's str.lower on ASCII text: each character lower-cased. */
  function Lower(s: string): (r: string)
    ensures |r| == |s|
    ensures forall i :: 0 <= i < |s| ==> r[i] == LowerChar(s[i])
  {
    if s == [] then [] else [LowerChar(s[0])] + Lower(s[1..])
  }

  /** Two strings that differ at most in the case of their letters. */
  predicate SameUpToCase(a: string, b: string) {
    |a| == |b| && forall i :: 0 <= i < |a| ==> UpperChar(a[i]) == UpperChar(b[i])
  }

  predicate NoLower(s: string) { forall i :: 0 <= i < |s| ==> !IsLower(s[i]) }

  predicate NoUpper(s: string) { forall i :: 0 <= i < |s| ==> !IsUpper(s[i]) }

  /** `_adjust_case`: the standard and constellation upper-case, the frame
      size lower-case, an absent argument left absent. */
  function AdjustCase(standard: Option<string>, frameSize: Option<string>, constellation: Option<string>)
    : (r: (Option<string>, Option<string>, Option<string>))
    ensures r.0.Some? <==> standard.Some?
    ensures r.1.Some? <==> frameSize.Some?
    ensures r.2.Some? <==> constellation.Some?
    ensures standard.Some? ==> NoLower(r.0.value) && SameUpToCase(r.0.value, standard.value)
    ensures frameSize.Some? ==> NoUpper(r.1.value) && SameUpToCase(r.1.value, frameSize.value)
    ensures constellation.Some? ==> NoLower(r.2.value) && SameUpToCase(r.2.value, constellation.value)
  {
    (if standard.Some? then Some(Upper(standard.value)) else None,
     if frameSize.Some? then Some(Lower(frameSize.value)) else None,
     if constellation.Some? then Some(Upper(constellation.value)) else None)
  }

  lemma UpperIdempotent(s: string)
    ensures Upper(Upper(s)) == Upper(s)
  {
    assert forall i :: 0 <= i < |s| ==> Upper(Upper(s))[i] == Upper(s)[i];
  }

  lemma LowerIdempotent(s: string)
    ensures Lower(Lower(s)) == Lower(s)
  {
    assert forall i :: 0 <= i < |s| ==> Lower(Lower(s))[i] == Lower(s)[i];
  }

  /** Adjusting the case twice is adjusting it once. */
  lemma AdjustCaseIdempotent(standard: Option<string>, frameSize: Option<string>, constellation: Option<string>)
    ensures var r := AdjustCase(standard, frameSize, constellation);
            AdjustCase(r.0, r.1, r.2) == r
  {
    if standard.Some? { UpperIdempotent(standard.value); }
    if frameSize.Some? { LowerIdempotent(frameSize.value); }
    if constellation.Some? { UpperIdempotent(constellation.value); }
  }

  // Validation

  /** Why `validate` returns False: the early return that fires. */
  datatype Rejection =
    | UnknownStandard
    | UnknownFrameSize
    | UnsupportedConstellation
    | UnsupportedCode
    | VlSnrWrongStandard
    | VlSnrUnsupportedCode
    | UnsupportedRolloff
    | PilotsNotBool

  /** Python truthiness of a 'vl-snr' entry: a flag, or a non-empty list. */
  predicate Truthy(e: VlSnrEntry) {
    match e
    case VlFlag(b) => b
    case VlModes(m) => |m| > 0
  }

  /** The constellations listed for a standard. */
  function FilteredConstellations(d: Defs, standard: string): (ks: set<string>)
    ensures forall k :: k in ks <==> k in d.constellations && standard in d.constellations[k].standard
  {
    set k | k in d.constellations && standard in d.constellations[k].standard
  }

  /** The LDPC codes listed for a standard and frame size. */
  function FilteredCodes(d: Defs, standard: string, frameSize: string): (ks: set<string>)
    ensures forall k :: k in ks <==> k in d.ldpcCodes && standard in d.ldpcCodes[k].standard && frameSize in d.ldpcCodes[k].frame
  {
    set k | k in d.ldpcCodes && standard in d.ldpcCodes[k].standard && frameSize in d.ldpcCodes[k].frame
  }

  /** The roll-off factors listed for a standard. */
  function FilteredRolloffs(d: Defs, standard: string): (ks: set<real>)
    ensures forall k :: k in ks <==> k in d.rolloffs && standard in d.rolloffs[k].standard
  {
    set k | k in d.rolloffs && standard in d.rolloffs[k].standard
  }

  /** The checks of `validate`, in order, on the case-adjusted arguments;
      None when every check passes. */
  function FirstRejection(d: Defs, standard: string, frameSize: string, code: string,
                          constellation: Option<string>, rolloff: Option<real>,
                          pilots: Option<PilotsArg>, vlSnr: bool): (r: Option<Rejection>)
    ensures r == Some(UnknownStandard) <==> Upper(standard) !in d.standards
  {
    var a := AdjustCase(Some(standard), Some(frameSize), constellation);
    var s, f, c := a.0.value, a.1.value, a.2;
    if s !in d.standards then Some(UnknownStandard)
    else if f !in d.frameSizes then Some(UnknownFrameSize)
    else if c.Some? && c.value !in FilteredConstellations(d, s) then Some(UnsupportedConstellation)
    else if code !in FilteredCodes(d, s, f) then Some(UnsupportedCode)
    else if vlSnr && s != "DVB-S2X" then Some(VlSnrWrongStandard)
    else if vlSnr && (d.ldpcCodes[code].vlSnr.None? || !Truthy(d.ldpcCodes[code].vlSnr.value))
    then Some(VlSnrUnsupportedCode)
    else if rolloff.Some? && rolloff.value !in FilteredRolloffs(d, s) then Some(UnsupportedRolloff)
    else if pilots.Some? && !pilots.value.PyBool? then Some(PilotsNotBool)
    else None
  }

  /** The LDPC code supports VL-SNR mode: its 'vl-snr' entry exists and is
      truthy. */
  predicate VlSnrCode(d: Defs, code: string)
    requires code in d.ldpcCodes
  {
    d.ldpcCodes[code].vlSnr.Some? && Truthy(d.ldpcCodes[code].vlSnr.value)
  }

  /** Every condition `validate` demands, on case-adjusted names, stated
      independently of the order of the checks. */
  predicate Acceptable(d: Defs, s: string, f: string, code: string, c: Option<string>,
                       rolloff: Option<real>, pilots: Option<PilotsArg>, vlSnr: bool)
  {
    && s in d.standards
    && f in d.frameSizes
    && (c.Some? ==> c.value in d.constellations && s in d.constellations[c.value].standard)
    && code in d.ldpcCodes && s in d.ldpcCodes[code].standard && f in d.ldpcCodes[code].frame
    && (vlSnr ==> s == "DVB-S2X" && VlSnrCode(d, code))
    && (rolloff.Some? ==> rolloff.value in d.rolloffs && s in d.rolloffs[rolloff.value].standard)
    && (pilots.Some? ==> pilots.value.PyBool?)
  }

  /** `validate`: true exactly when every condition holds of the
      case-adjusted arguments. */
  function Validate(d: Defs, standard: string, frameSize: string, code: string,
                    constellation: Option<string>, rolloff: Option<real>,
                    pilots: Option<PilotsArg>, vlSnr: bool): (ok: bool)
    ensures ok <==> Acceptable(d, Upper(standard), Lower(frameSize), code,
                               AdjustCase(None, None, constellation).2, rolloff, pilots, vlSnr)
  {
    FirstRejection(d, standard, frameSize, code, constellation, rolloff, pilots, vlSnr).None?
  }

  /** The standard and the frame size are checked before anything else: an
      unknown one is reported whatever the other arguments are. */
  lemma StandardAndFrameSizeFirst(d: Defs, standard: string, frameSize: string, code: string,
                                  constellation: Option<string>, rolloff: Option<real>,
                                  pilots: Option<PilotsArg>, vlSnr: bool)
    ensures Upper(standard) !in d.standards ==>
      FirstRejection(d, standard, frameSize, code, constellation, rolloff, pilots, vlSnr) == Some(UnknownStandard)
    ensures Upper(standard) in d.standards && Lower(frameSize) !in d.frameSizes ==>
      FirstRejection(d, standard, frameSize, code, constellation, rolloff, pilots, vlSnr) == Some(UnknownFrameSize)
  {
  }

  /** VL-SNR mode is refused outside DVB-S2X and for codes whose 'vl-snr'
      entry is missing or falsy. */
  lemma VlSnrNeedsS2xAndCode(d: Defs, standard: string, frameSize: string, code: string,
                             constellation: Option<string>, rolloff: Option<real>,
                             pilots: Option<PilotsArg>)
    ensures Validate(d, standard, frameSize, code, constellation, rolloff, pilots, true) ==>
      Upper(standard) == "DVB-S2X" && code in d.ldpcCodes && VlSnrCode(d, code)
    ensures Validate(d, standard, frameSize, code, constellation, rolloff, pilots, true) ==>
      Validate(d, standard, frameSize, code, constellation, rolloff, pilots, false)
  {
  }

  /** Case-adjusting the arguments first does not change the verdict. */
  lemma ValidateCaseInsensitive(d: Defs, standard: string, frameSize: string, code: string,
                                constellation: Option<string>, rolloff: Option<real>,
                                pilots: Option<PilotsArg>, vlSnr: bool)
    ensures var a := AdjustCase(Some(standard), Some(frameSize), constellation);
      Validate(d, a.0.value, a.1.value, code, a.2, rolloff, pilots, vlSnr) ==
      Validate(d, standard, frameSize, code, constellation, rolloff, pilots, vlSnr)
  {
    AdjustCaseIdempotent(Some(standard), Some(frameSize), constellation);
  }

  // Translation

  /** Looking up index j of the 'frame' and 'vl-snr' lists raises: 'frame'
      is too short, or (when the frame size matches) 'vl-snr' is not a list
      or is too short. */
  function LookupFault(frames: seq<string>, modes: VlSnrEntry, frameSize: string, j: nat): Option<PyError>
  {
    if j >= |frames| then Some(IndexError)
    else if frames[j] != frameSize then None
    else if !modes.VlModes? then Some(TypeError)
    else if j >= |modes.modes| then Some(IndexError)
    else None
  }

  /** Index j lists the wanted frame size and VL-SNR mode. */
  predicate MatchesAt(frames: seq<string>, modes: VlSnrEntry, frameSize: string, vlSnr: bool, j: nat) {
    j < |frames| && frames[j] == frameSize &&
    modes.VlModes? && j < |modes.modes| && modes.modes[j] == vlSnr
  }

  /** The scan moves past index j: no match and no fault there. */
  predicate PassesAt(frames: seq<string>, modes: VlSnrEntry, frameSize: string, vlSnr: bool, j: nat) {
    !MatchesAt(frames, modes, frameSize, vlSnr, j) && LookupFault(frames, modes, frameSize, j).None?
  }

  /** k is the first index of the code definition list that matches, with
      every earlier index passed over. */
  predicate FirstMatch(names: seq<string>, frames: seq<string>, modes: VlSnrEntry,
                       frameSize: string, vlSnr: bool, k: nat) {
    k < |names| && MatchesAt(frames, modes, frameSize, vlSnr, k) &&
    forall j :: 0 <= j < k ==> PassesAt(frames, modes, frameSize, vlSnr, j)
  }

  /** The loop over a list-valued code definition: the first index whose
      frame size and VL-SNR mode both match, an IndexError or TypeError
      from the lookups made on the way, or an AssertionError when the list
      has no match. */
  method SelectCodeIndex(names: seq<string>, frames: seq<string>, modes: VlSnrEntry,
                         frameSize: string, vlSnr: bool) returns (r: Result<nat, PyError>)
    ensures r.Ok? ==> FirstMatch(names, frames, modes, frameSize, vlSnr, r.value)
    ensures r.Err? && r.error != AssertionError ==>
      exists k :: 0 <= k < |names| && LookupFault(frames, modes, frameSize, k) == Some(r.error) &&
        forall j :: 0 <= j < k ==> PassesAt(frames, modes, frameSize, vlSnr, j)
    ensures r == Err(AssertionError) <==>
      forall j :: 0 <= j < |names| ==> PassesAt(frames, modes, frameSize, vlSnr, j)
    ensures r.Err? ==> forall k: nat :: !FirstMatch(names, frames, modes, frameSize, vlSnr, k)
  {
    var idx := 0;
    while idx < |names|
      invariant idx <= |names|
      invariant forall j :: 0 <= j < idx ==> PassesAt(frames, modes, frameSize, vlSnr, j)
    {
      var fault := LookupFault(frames, modes, frameSize, idx);
      if fault.Some? {
        assert !PassesAt(frames, modes, frameSize, vlSnr, idx);
        NoMatchAfterFault(names, frames, modes, frameSize, vlSnr, idx);
        return Err(fault.value);
      }
      if MatchesAt(frames, modes, frameSize, vlSnr, idx) {
        assert !PassesAt(frames, modes, frameSize, vlSnr, idx);
        return Ok(idx);
      }
      idx := idx + 1;
    }
    assert forall k: nat :: FirstMatch(names, frames, modes, frameSize, vlSnr, k) ==>
      PassesAt(frames, modes, frameSize, vlSnr, k);
    return Err(AssertionError);
  }

  /** Once the scan faults at k0, no index is a first match. */
  lemma NoMatchAfterFault(names: seq<string>, frames: seq<string>, modes: VlSnrEntry,
                          frameSize: string, vlSnr: bool, k0: nat)
    requires LookupFault(frames, modes, frameSize, k0).Some?
    requires forall j :: 0 <= j < k0 ==> PassesAt(frames, modes, frameSize, vlSnr, j)
    ensures forall k: nat :: !FirstMatch(names, frames, modes, frameSize, vlSnr, k)
  {
    forall k: nat
      ensures !FirstMatch(names, frames, modes, frameSize, vlSnr, k)
    {
      if k < k0 {
        assert PassesAt(frames, modes, frameSize, vlSnr, k);
      } else if k > k0 {
        assert !PassesAt(frames, modes, frameSize, vlSnr, k0);
      }
    }
  }

  /** The code name selected for a frame size and VL-SNR mode. */
  ghost predicate CodeSelected(e: CodeDef, frameSize: string, vlSnr: bool, name: string) {
    match e.cppDef
    case Single(n) => name == n
    case PerMode(names) =>
      e.vlSnr.Some? &&
      exists k: nat :: FirstMatch(names, e.frame, e.vlSnr.value, frameSize, vlSnr, k) && name == names[k]
  }

  /** A code name can be selected: a single definition, or a list with a
      'vl-snr' entry and a first match. */
  ghost predicate CodeSelectable(e: CodeDef, frameSize: string, vlSnr: bool) {
    match e.cppDef
    case Single(_) => true
    case PerMode(names) =>
      e.vlSnr.Some? && exists k: nat :: FirstMatch(names, e.frame, e.vlSnr.value, frameSize, vlSnr, k)
  }

  /** Number of optional arguments given. */
  function OptionalCount(constellation: Option<string>, rolloff: Option<real>, pilots: Option<PilotsArg>): (k: nat)
    ensures k <= 3
  {
    (if constellation.Some? then 1 else 0) + (if rolloff.Some? then 1 else 0) + (if pilots.Some? then 1 else 0)
  }

  /** `translate`: ValueError exactly when validation (without the VL-SNR
      flag) fails; otherwise the qualified names of the standard, frame size
      and code, followed by those of the constellation, roll-off and pilots
      setting that were given, in that order. */
  method Translate(d: Defs, standard: string, frameSize: string, code: string,
                   constellation: Option<string>, rolloff: Option<real>,
                   pilots: Option<PilotsArg>, vlSnr: bool) returns (r: Result<seq<string>, PyError>)
    ensures r == Err(ValueError) <==> !Validate(d, standard, frameSize, code, constellation, rolloff, pilots, false)
    ensures r.Ok? <==>
      Validate(d, standard, frameSize, code, constellation, rolloff, pilots, false) &&
      CodeSelectable(d.ldpcCodes[code], Lower(frameSize), vlSnr) &&
      (pilots.Some? ==> pilots.value.flag in d.pilots)
    ensures r.Ok? ==>
      var s, f, c := Upper(standard), Lower(frameSize), AdjustCase(None, None, constellation).2;
      var t := r.value;
      |t| == 3 + OptionalCount(constellation, rolloff, pilots) &&
      t[0] == Qualified(d.standards[s]) &&
      t[1] == Qualified(d.frameSizes[f]) &&
      (exists name :: CodeSelected(d.ldpcCodes[code], f, vlSnr, name) && t[2] == Qualified(name)) &&
      (c.Some? ==> t[3] == Qualified(d.constellations[c.value].cppDef)) &&
      (rolloff.Some? ==> t[if c.Some? then 4 else 3] == Qualified(d.rolloffs[rolloff.value].cppDef)) &&
      (pilots.Some? ==> t[|t| - 1] == Qualified(d.pilots[pilots.value.flag]))
  {
    var a := AdjustCase(Some(standard), Some(frameSize), constellation);
    var s, f, c := a.0.value, a.1.value, a.2;
    ValidateCaseInsensitive(d, standard, frameSize, code, constellation, rolloff, pilots, false);
    var valid := Validate(d, s, f, code, c, rolloff, pilots, false);
    if !valid {
      return Err(ValueError);
    }
    var tStandard := Qualified(d.standards[s]);
    var tFrameSize := Qualified(d.frameSizes[f]);
    var entry := d.ldpcCodes[code];
    var tCode: string;
    match entry.cppDef {
      case PerMode(names) =>
        if entry.vlSnr.None? {
          return Err(KeyError);
        }
        var idx := SelectCodeIndex(names, entry.frame, entry.vlSnr.value, f, vlSnr);
        if idx.Err? {
          return Err(idx.error);
        }
        tCode := Qualified(names[idx.value]);
      case Single(name) =>
        tCode := Qualified(name);
    }
    var res := [tStandard, tFrameSize, tCode];
    if c.Some? {
      res := res + [Qualified(d.constellations[c.value].cppDef)];
    }
    if rolloff.Some? {
      res := res + [Qualified(d.rolloffs[rolloff.value].cppDef)];
    }
    if pilots.Some? {
      var key := pilots.value.flag;
      if key !in d.pilots {
        return Err(KeyError);
      }
      res := res + [Qualified(d.pilots[key])];
    }
    return Ok(res);
  }
}
