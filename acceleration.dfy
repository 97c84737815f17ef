/**
 * The RAPID `AccSet` component: one instruction line that overrides the
 * robot's acceleration and deceleration, given as percentages of the
 * controller's own values.
 */
module Acceleration {
  import opened Common

  /** One optional number input as the host hands it to the solver. */
  datatype NumberInput =
    | Unwired            // nothing connected: the value registered with the input is read
    | Wired(value: real) // a number arrives on the input
    | Unreadable         // the host cannot read the input as a number

  /** The values registered with the two inputs. */
  const DefaultAcceleration: real := 35.0
  const DefaultDeceleration: real := 60.0

  const Keyword: string := "AccSet "

  /** What reading an input registered with `default` yields; `None` when the read fails. */
  function ReadNumber(input: NumberInput, default: real): Option<real> {
    match input
    case Unwired => Some(default)
    case Wired(v) => Some(v)
    case Unreadable => None
  }

  /**
   * The instruction text; `show` is the host's number formatting.
   * The acceleration comes first, the deceleration second.
   */
  function AccSet(acc: real, dec: real, show: real -> string): (code: string)
    ensures |code| == |Keyword| + |show(acc)| + 2 + |show(dec)| + 1
    ensures code[..|Keyword|] == Keyword && code[|code| - 1] == ';'
  {
    Keyword + show(acc) + ", " + show(dec) + ";"
  }

  /**
   * One solve of the component: the code text it outputs, or `None` when
   * it returns before setting any output.
   */
  function SolveInstance(acc: NumberInput, dec: NumberInput, show: real -> string): (code: Option<string>)
    ensures code.Some? <==> !acc.Unreadable? && !dec.Unreadable?
    ensures code.Some? ==>
              code.value == AccSet(if acc.Wired? then acc.value else DefaultAcceleration,
                                   if dec.Wired? then dec.value else DefaultDeceleration, show)
  {
    match ReadNumber(acc, DefaultAcceleration)
    case None => None
    case Some(a) =>
      match ReadNumber(dec, DefaultDeceleration)
      case None => None
      case Some(d) => Some(AccSet(a, d, show))
  }

  /**
   * Reads the two argument texts back out of an `AccSet` line: the text
   * before the first ", " and the text after it.
   */
  function ParseAccSet(code: string): Option<(string, string)> {
    if |code| < |Keyword| + 1 || code[..|Keyword|] != Keyword || code[|code| - 1] != ';' then None
    else
      var body := code[|Keyword|..|code| - 1];
      var k := IndexOfSeparator(body);
      if k < |body| then Some((body[..k], body[k + 2..])) else None
  }

  /** The line is the keyword, the two formatted numbers joined by ", ", and `;`. */
  lemma AccSetText(acc: real, dec: real, show: real -> string)
    ensures AccSet(acc, dec, show) == Keyword + Join([show(acc), show(dec)]) + ";"
  {
    var a, d := show(acc), show(dec);
    assert [a, d][1..] == [d];
    assert Join([a, d]) == a + ", " + d;
  }

  /**
   * Whenever the formatted acceleration is a list item (no ", " in it, no
   * comma at its end; a decimal comma is allowed), the line gives back both
   * argument texts, acceleration first.
   */
  lemma ParseAccSetInvertsAccSet(acc: real, dec: real, show: real -> string)
    requires Item(show(acc))
    ensures ParseAccSet(AccSet(acc, dec, show)) == Some((show(acc), show(dec)))
  {
    var code := AccSet(acc, dec, show);
    var a, d := show(acc), show(dec);
    var body := code[|Keyword|..|code| - 1];
    assert body == a + ", " + d;
    ItemEndsAtSeparator(a, d);
    assert body[..|a|] == a && body[|a| + 2..] == d;
  }

  /**
   * The line read back as a ", "-separated list between `AccSet ` and `;`:
   * exactly the acceleration text, then the deceleration text.
   */
  lemma AccSetFields(acc: real, dec: real, show: real -> string)
    requires Item(show(acc)) && Item(show(dec))
    ensures Framed(AccSet(acc, dec, show), Keyword, ";", [show(acc), show(dec)])
  {
    AccSetText(acc, dec, show);
    FramedJoin(Keyword, [show(acc), show(dec)], ";");
  }

  /** With a decimal comma, as some host cultures write numbers, the line still reads back. */
  lemma DecimalCommaReadsBack()
    ensures ParseAccSet(AccSet(35.5, 60.0, x => if x == 35.5 then "35,5" else "60")) == Some(("35,5", "60"))
  {
    var show := (x: real) => if x == 35.5 then "35,5" else "60";
    assert show(35.5) == "35,5";
    assert Item("35,5") by {
      assert "35,5"[2] == ',' && "35,5"[3] == '5';
    }
    ParseAccSetInvertsAccSet(35.5, 60.0, show);
  }
}
