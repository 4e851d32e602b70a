/** The heads-up display: a stamina bar whose colour follows the stamina
    percentage, an XP bar, and the level and score labels. The decisions are
    pure functions; the display writes are a class whose fields stand for the
    DOM properties the source assigns. */
module Ui {

  /** The colour class of a bar's fill. */
  datatype Colour = Green | Yellow | Red | Blue

  /** A JavaScript number as far as the bars need it: a finite value, an
      infinity, or NaN. */
  datatype Num = Finite(v: real) | PosInf | NegInf | NaN

  /** The percentage a bar shows, `value / max * 100`: finite when the
      maximum is not zero; otherwise division by zero gives an infinity with
      the sign of the value, or NaN for 0 / 0. */
  function Percentage(value: real, max: real): (p: Num)
    ensures p.Finite? <==> max != 0.0
    ensures p.Finite? ==> p.v * max == value * 100.0
    ensures p == PosInf <==> max == 0.0 && value > 0.0
    ensures p == NegInf <==> max == 0.0 && value < 0.0
    ensures p == NaN <==> max == 0.0 && value == 0.0
  {
    if max != 0.0 then Finite(value / max * 100.0)
    else if value > 0.0 then PosInf
    else if value < 0.0 then NegInf
    else NaN
  }

  /** `p > bound` on a JavaScript number: every comparison with NaN is
      false. */
  predicate Above(p: Num, bound: real)
  {
    match p
    case Finite(v) => v > bound
    case PosInf => true
    case NegInf => false
    case NaN => false
  }

  /** The stamina fill's colour for a percentage: green above 50, yellow
      above 25, red otherwise. */
  function StaminaColour(p: Num): Colour
  {
    if Above(p, 50.0) then Green
    else if Above(p, 25.0) then Yellow
    else Red
  }

  /** Red < yellow < green; other colours are not stamina colours. */
  function Rank(c: Colour): int
  {
    match c
    case Red => 0
    case Yellow => 1
    case Green => 2
    case Blue => -1
  }

  /** The band in terms of stamina and a positive maximum: green above half,
      yellow above a quarter up to half, red at a quarter or less. */
  lemma StaminaBands(stamina: real, max: real)
    requires max > 0.0
    ensures var c := StaminaColour(Percentage(stamina, max));
            (c == Green <==> 2.0 * stamina > max) &&
            (c == Yellow <==> 4.0 * stamina > max && 2.0 * stamina <= max) &&
            (c == Red <==> 4.0 * stamina <= max)
  {
    var p := Percentage(stamina, max).v;
    AboveScaled(p, max, stamina * 100.0, 50.0);
    AboveScaled(p, max, stamina * 100.0, 25.0);
  }

  /** Comparing p with a bound is comparing p * max with bound * max. */
  lemma AboveScaled(p: real, max: real, product: real, bound: real)
    requires max > 0.0 && p * max == product
    ensures p > bound <==> product > bound * max
  {
    if p > bound {
      assert (p - bound) * max > 0.0;
    } else {
      assert (bound - p) * max >= 0.0;
    }
  }

  /** With a zero maximum the bar is green for positive stamina (Infinity)
      and red otherwise (-Infinity, or NaN for 0 / 0). */
  lemma ZeroMaxColour(stamina: real)
    ensures StaminaColour(Percentage(stamina, 0.0)) == (if stamina > 0.0 then Green else Red)
  {
  }

  /** Exactly 50 percent is yellow and exactly 25 percent is red. */
  lemma BandBoundaries()
    ensures StaminaColour(Finite(50.0)) == Yellow && StaminaColour(Finite(25.0)) == Red
    ensures StaminaColour(Finite(50.5)) == Green && StaminaColour(Finite(25.5)) == Yellow
  {
  }

  /** With a fixed positive maximum, more stamina never gives a worse
      colour. */
  lemma StaminaColourMonotone(s1: real, s2: real, max: real)
    requires max > 0.0 && s1 <= s2
    ensures Rank(StaminaColour(Percentage(s1, max))) <= Rank(StaminaColour(Percentage(s2, max)))
  {
    StaminaBands(s1, max);
    StaminaBands(s2, max);
  }

  // ---------------------------------------------------------------------
  // Label text

  function DigitChar(d: nat): char
    requires d < 10
  {
    "0123456789"[d]
  }

  predicate IsDigit(c: char) { '0' <= c <= '9' }

  function DigitValue(c: char): nat
    requires IsDigit(c)
  {
    (c as int - '0' as int) as nat
  }

  /** The decimal digits of a natural number, most significant first. */
  function NatString(n: nat): (s: string)
    ensures |s| >= 1 && forall i :: 0 <= i < |s| ==> IsDigit(s[i])
    decreases n
  {
    if n < 10 then [DigitChar(n)] else NatString(n / 10) + [DigitChar(n % 10)]
  }

  /** A number as text: a minus sign before the digits of a negative one. */
  function IntString(n: int): string
  {
    if n < 0 then "-" + NatString(-n) else NatString(n)
  }

  /** The value of a string of decimal digits. */
  function ParseDigits(s: string): nat
    requires forall i :: 0 <= i < |s| ==> IsDigit(s[i])
    decreases |s|
  {
    if s == [] then 0 else ParseDigits(s[..|s| - 1]) * 10 + DigitValue(s[|s| - 1])
  }

  /** The value of an optionally signed decimal string. */
  function ParseInt(s: string): int
    requires |s| >= 1
    requires s[0] == '-' ==> forall i :: 1 <= i < |s| ==> IsDigit(s[i])
    requires s[0] != '-' ==> forall i :: 0 <= i < |s| ==> IsDigit(s[i])
  {
    if s[0] == '-' then 0 - ParseDigits(s[1..]) as int else ParseDigits(s)
  }

  lemma DigitRoundTrip(d: nat)
    requires d < 10
    ensures IsDigit(DigitChar(d)) && DigitValue(DigitChar(d)) == d
  {
  }

  /** Reading the digits of n gives back n. */
  lemma {:induction false} NatStringRoundTrip(n: nat)
    ensures ParseDigits(NatString(n)) == n
    decreases n
  {
    var s := NatString(n);
    if n < 10 {
      DigitRoundTrip(n);
      assert s[..0] == [];
    } else {
      NatStringRoundTrip(n / 10);
      DigitRoundTrip(n % 10);
      assert s[..|s| - 1] == NatString(n / 10);
    }
  }

  /** No leading zero: only 0 itself starts with the digit 0. */
  lemma {:induction false} NatStringCanonical(n: nat)
    ensures NatString(n)[0] == '0' <==> n == 0
    decreases n
  {
    if n >= 10 {
      NatStringCanonical(n / 10);
    }
  }

  /** Reading the text of any integer gives it back. */
  lemma IntStringRoundTrip(n: int)
    ensures |IntString(n)| >= 1
    ensures ParseInt(IntString(n)) == n
  {
    var s := IntString(n);
    if n < 0 {
      var digits := NatString(-n);
      assert s == "-" + digits;
      assert s[1..] == digits;
      assert forall i :: 1 <= i < |s| ==> s[i] == digits[i - 1];
      NatStringRoundTrip(-n);
    } else {
      assert IsDigit(s[0]);
      NatStringRoundTrip(n);
    }
  }

  const LabelOpen: string := "<span class=\"text-white text-lg font-bold\">"
  const LabelClose: string := "</span>"

  /** The markup a label holds: its text inside the bold white span. */
  function LabelHtml(text: string): string
  {
    LabelOpen + text + LabelClose
  }

  function LevelText(level: int): string
  {
    "Level " + IntString(level)
  }

  function ScoreText(score: int): string
  {
    "Score: " + IntString(score)
  }

  /** The level text is "Level " followed by the level, which can be read
      back from it. */
  lemma LevelTextReadsBack(level: int)
    ensures var t := LevelText(level);
            |t| > 6 && t[..6] == "Level " && ParseInt(t[6..]) == level
  {
    IntStringRoundTrip(level);
    assert LevelText(level)[6..] == IntString(level);
  }

  /** The score text is "Score: " followed by the score, which can be read
      back from it. */
  lemma ScoreTextReadsBack(score: int)
    ensures var t := ScoreText(score);
            |t| > 7 && t[..7] == "Score: " && ParseInt(t[7..]) == score
  {
    IntStringRoundTrip(score);
    assert ScoreText(score)[7..] == IntString(score);
  }

  /** Different levels give different labels. */
  lemma LevelTextInjective(a: int, b: int)
    requires LevelText(a) == LevelText(b)
    ensures a == b
  {
    LevelTextReadsBack(a);
    LevelTextReadsBack(b);
  }

  // ---------------------------------------------------------------------
  // The display

  /** A bar's fill element: its width in percent and its colour class. */
  class Fill {
    var width: Num
    var colour: Colour

    constructor (width: Num, colour: Colour)
      ensures this.width == width && this.colour == colour
    {
      this.width := width;
      this.colour := colour;
    }
  }

  class Hud {
    /** The first child of the stamina bar, if it has one. */
    var staminaFill: Fill?
    /** The first child of the XP bar, if it has one. */
    var xpFill: Fill?
    var levelHtml: string
    var scoreHtml: string

    /** The two bars have different fills. */
    predicate Valid()
      reads this
    {
      staminaFill == null || staminaFill != xpFill
    }

    /** The display as first built: full green stamina, 35% blue XP, level 1,
        score 0. */
    constructor ()
      ensures Valid() && staminaFill != null && xpFill != null
      ensures fresh(staminaFill) && fresh(xpFill)
      ensures staminaFill.width == Finite(100.0) && staminaFill.colour == Green
      ensures xpFill.width == Finite(35.0) && xpFill.colour == Blue
      ensures levelHtml == LabelHtml(LevelText(1))
      ensures scoreHtml == LabelHtml(ScoreText(0))
    {
      staminaFill := new Fill(Finite(100.0), Green);
      xpFill := new Fill(Finite(35.0), Blue);
      levelHtml := "<span class=\"text-white text-lg font-bold\">Level 1</span>";
      scoreHtml := "<span class=\"text-white text-lg font-bold\">Score: 0</span>";
      assert IntString(1) == "1" && IntString(0) == "0";
    }

    /** Sets the stamina fill's width and colour; nothing happens when the
        bar has no fill. */
    method UpdateStamina(stamina: real, maxStamina: real)
      requires Valid()
      modifies staminaFill
      ensures staminaFill != null ==>
                staminaFill.width == Percentage(stamina, maxStamina) &&
                staminaFill.colour == StaminaColour(Percentage(stamina, maxStamina))
      ensures xpFill != null ==> xpFill.width == old(xpFill.width) && xpFill.colour == old(xpFill.colour)
    {
      var percentage := Percentage(stamina, maxStamina);
      var fill := staminaFill;
      if fill != null {
        fill.width := percentage;
        if Above(percentage, 50.0) {
          fill.colour := Green;
        } else if Above(percentage, 25.0) {
          fill.colour := Yellow;
        } else {
          fill.colour := Red;
        }
      }
    }

    /** Sets the XP fill's width and leaves its colour; nothing happens when
        the bar has no fill. */
    method UpdateXP(currentXP: real, maxXP: real)
      requires Valid()
      modifies xpFill
      ensures xpFill != null ==>
                xpFill.width == Percentage(currentXP, maxXP) && xpFill.colour == old(xpFill.colour)
      ensures staminaFill != null ==>
                staminaFill.width == old(staminaFill.width) && staminaFill.colour == old(staminaFill.colour)
    {
      var percentage := Percentage(currentXP, maxXP);
      var fill := xpFill;
      if fill != null {
        fill.width := percentage;
      }
    }

    method UpdateLevel(level: int)
      modifies this
      ensures levelHtml == LabelHtml(LevelText(level))
      ensures scoreHtml == old(scoreHtml) && staminaFill == old(staminaFill) && xpFill == old(xpFill)
    {
      levelHtml := LabelOpen + "Level " + IntString(level) + LabelClose;
    }

    method UpdateScore(score: int)
      modifies this
      ensures scoreHtml == LabelHtml(ScoreText(score))
      ensures levelHtml == old(levelHtml) && staminaFill == old(staminaFill) && xpFill == old(xpFill)
    {
      scoreHtml := LabelOpen + "Score: " + IntString(score) + LabelClose;
    }
  }
}
