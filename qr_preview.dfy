/** The preview panel: it shows a placeholder for an empty value, an error
    box for a value that is too long or whose rendering failed, and the QR
    canvas otherwise. The QR library itself is an oracle that either draws
    or raises. */
module Preview {
  import opened JsString

  /** Error-correction level of the symbol. */
  datatype Level = L | M | Q | H

  function LevelName(l: Level): char {
    match l
    case L => 'L'
    case M => 'M'
    case Q => 'Q'
    case H => 'H'
  }

  /** Longest value, in UTF-16 code units, the preview hands to the QR library. */
  const MaxRenderLength := 2500

  /** How much wider than the code the placeholder and error boxes are. */
  const FrameMargin := 48

  /** What the preview shows: the "enter content" placeholder, the "data too
      large or invalid" box (each `side` pixels square), or the QR canvas
      drawn with the given props. */
  datatype Outcome =
    | Placeholder(side: nat)
    | Fallback(side: nat)
    | Canvas(value: string, size: nat, fgColor: string, bgColor: string, level: Level)

  /** The choice `QRPreview` makes for its props and its `renderError` flag. */
  function Decide(value: string, size: nat, fgColor: string, bgColor: string,
                  level: Level, renderError: bool): Outcome
  {
    if value == "" then Placeholder(size + FrameMargin)
    else if Utf16Length(value) > MaxRenderLength || renderError then Fallback(size + FrameMargin)
    else Canvas(value, size, fgColor, bgColor, level)
  }

  /** The three outcomes and exactly when each one is chosen. */
  lemma DecideCases(value: string, size: nat, fg: string, bg: string, level: Level, renderError: bool)
    ensures Decide(value, size, fg, bg, level, renderError).Placeholder? <==> value == ""
    ensures Decide(value, size, fg, bg, level, renderError).Fallback? <==>
              value != "" && (Utf16Length(value) > MaxRenderLength || renderError)
    ensures Decide(value, size, fg, bg, level, renderError).Canvas? <==>
              0 < |value| && Utf16Length(value) <= MaxRenderLength && !renderError
  {
  }

  /** The library is only ever handed a non-empty value of at most 2500
      characters, with the props exactly as given, and only while no
      rendering error is recorded. */
  lemma CanvasGetsProps(value: string, size: nat, fg: string, bg: string, level: Level, renderError: bool)
    requires Decide(value, size, fg, bg, level, renderError).Canvas?
    ensures Decide(value, size, fg, bg, level, renderError) == Canvas(value, size, fg, bg, level)
    ensures 0 < |value| && Utf16Length(value) <= MaxRenderLength && !renderError
  {
  }

  /** A value over the limit gets the error box whatever the style, the
      level and the error flag. */
  lemma OversizeIgnoresStyle(value: string, size: nat, fg1: string, bg1: string, level1: Level, e1: bool,
                             fg2: string, bg2: string, level2: Level, e2: bool)
    requires Utf16Length(value) > MaxRenderLength
    ensures Decide(value, size, fg1, bg1, level1, e1) == Fallback(size + FrameMargin)
    ensures Decide(value, size, fg1, bg1, level1, e1) == Decide(value, size, fg2, bg2, level2, e2)
  {
  }

  /** The limit is strict: 2500 code units still reach the library. */
  lemma LimitIsStrict(value: string, size: nat, fg: string, bg: string, level: Level)
    requires Utf16Length(value) == MaxRenderLength
    ensures Decide(value, size, fg, bg, level, false).Canvas?
  {
  }

  /** The limit is on code units: 1251 emoji, 2502 code units, already
      get the error box, while 2500 Latin characters are drawn. */
  lemma AstralTextHitsLimitEarly(value: string, size: nat, fg: string, bg: string, level: Level, e: bool)
    requires |value| > MaxRenderLength / 2
    requires forall k :: 0 <= k < |value| ==> value[k] as int > 0xFFFF
    ensures Decide(value, size, fg, bg, level, e) == Fallback(size + FrameMargin)
  {
    AstralLengthIsDouble(value);
  }

  /** The boxes that stand in for the code are 48 pixels wider than it. */
  lemma BoxesFrameTheCode(value: string, size: nat, fg: string, bg: string, level: Level, renderError: bool)
    requires !Decide(value, size, fg, bg, level, renderError).Canvas?
    ensures Decide(value, size, fg, bg, level, renderError).side == size + 48
  {
  }

  /** The error boundary's `key`: the value followed by the level letter. */
  function BoundaryKey(value: string, level: Level): string {
    value + [LevelName(level)]
  }

  /** Two keys are the same only for the same value and level, so a new
      value or a new level always mounts a fresh boundary. */
  lemma BoundaryKeyInjective(v1: string, l1: Level, v2: string, l2: Level)
    ensures BoundaryKey(v1, l1) == BoundaryKey(v2, l2) <==> v1 == v2 && l1 == l2
  {
    var k1, k2 := BoundaryKey(v1, l1), BoundaryKey(v2, l2);
    if k1 == k2 {
      assert |v1| == |v2|;
      assert v1 == k1[..|v1|] && v2 == k2[..|v2|];
      assert k1[|v1|] == LevelName(l1) && k2[|v2|] == LevelName(l2);
    }
  }

  /** The preview as a component: its current props, its `renderError`
      state, and the error boundary around the canvas (its key and whether
      it has caught an error). */
  class QRPreview {
    var value: string
    var size: nat
    var fgColor: string
    var bgColor: string
    var errorLevel: Level
    var renderError: bool
    var boundaryKey: string
    var boundaryFailed: bool

    /** The boundary is keyed on the current value and level, and it holds
        a caught error exactly when the preview has recorded one. */
    ghost predicate Valid()
      reads this
    {
      boundaryKey == BoundaryKey(value, errorLevel) && boundaryFailed == renderError
    }

    /** What is on screen. */
    function Shown(): Outcome
      reads this
    {
      Decide(value, size, fgColor, bgColor, errorLevel, renderError)
    }

    /** First mount: no error recorded, a fresh boundary. */
    constructor (value: string, size: nat, fgColor: string, bgColor: string, errorLevel: Level)
      ensures Valid()
      ensures this.value == value && this.size == size && this.fgColor == fgColor
      ensures this.bgColor == bgColor && this.errorLevel == errorLevel
      ensures !renderError
      ensures Shown() == Decide(value, size, fgColor, bgColor, errorLevel, false)
    {
      this.value, this.size, this.fgColor, this.bgColor, this.errorLevel := value, size, fgColor, bgColor, errorLevel;
      renderError := false;
      boundaryKey := BoundaryKey(value, errorLevel);
      boundaryFailed := false;
    }

    /** New props from the parent, followed by the reset effect: a change of
        value or level clears the error flag and re-keys the boundary; a
        change of size or colour alone keeps both. */
    method SetProps(value: string, size: nat, fgColor: string, bgColor: string, errorLevel: Level)
      requires Valid()
      modifies this
      ensures Valid()
      ensures this.value == value && this.size == size && this.fgColor == fgColor
      ensures this.bgColor == bgColor && this.errorLevel == errorLevel
      ensures renderError == (old(renderError) && value == old(this.value) && errorLevel == old(this.errorLevel))
    {
      var key := BoundaryKey(value, errorLevel);
      BoundaryKeyInjective(value, errorLevel, this.value, this.errorLevel);
      if value != this.value || errorLevel != this.errorLevel {
        renderError := false;
      }
      if key != boundaryKey {
        boundaryKey := key;
        boundaryFailed := false;
      }
      this.value, this.size, this.fgColor, this.bgColor, this.errorLevel := value, size, fgColor, bgColor, errorLevel;
    }

    /** The QR library raised while drawing the canvas: the boundary catches
        it and its `onError` records the failure, so the error box is shown. */
    method LibraryRaised()
      requires Valid() && Shown().Canvas?
      modifies this`renderError, this`boundaryFailed
      ensures Valid()
      ensures renderError
      ensures Shown() == Fallback(size + FrameMargin)
    {
      boundaryFailed := true;
      renderError := true;
    }
  }
}
