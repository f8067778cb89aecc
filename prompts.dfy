/** Prompt rendering of `get_llm_feedback` (app.py lines 26-55, 95 and 102).
    A template is a sequence of literal text and named placeholders, and
    `template.format(**args)` is a single pass over it: each placeholder is
    replaced by the text of its argument, and that text is never scanned
    again, so braces inside an argument come out as they are. A placeholder
    with no argument is Python's KeyError, here `None`. */
module Prompts {
  import opened Optional

  /** The placeholder names the two templates use. */
  datatype Field = Purpose | Script | Wpm

  datatype Segment = Text(text: string) | Slot(field: Field)

  type Template = seq<Segment>

  /** The keyword arguments of one `.format` call. */
  type Args = map<Field, string>

  /** The fields whose placeholders occur in t. */
  function Fields(t: Template): set<Field> {
    if t == [] then {}
    else Fields(t[..|t| - 1]) + (if t[|t| - 1].Slot? then {t[|t| - 1].field} else {})
  }

  /** How many placeholders for f occur in t. */
  function Occurrences(t: Template, f: Field): nat {
    if t == [] then 0
    else Occurrences(t[..|t| - 1], f) + (if t[|t| - 1] == Slot(f) then 1 else 0)
  }

  /** Total length of the literal text of t. */
  function TextLength(t: Template): nat {
    if t == [] then 0
    else TextLength(t[..|t| - 1]) + (if t[|t| - 1].Text? then |t[|t| - 1].text| else 0)
  }

  function ArgLength(args: Args, f: Field): nat {
    if f in args then |args[f]| else 0
  }

  /** What one segment becomes in the output: its text, or the argument of
      its placeholder. */
  function Piece(s: Segment, args: Args): string
    requires s.Slot? ==> s.field in args
  {
    match s
    case Text(x) => x
    case Slot(f) => args[f]
  }

  /** `t.format(**args)`, segment after segment. It fails (Python's KeyError)
      exactly when some placeholder has no argument. */
  function Render(t: Template, args: Args): (r: Option<string>)
    ensures r.Some? <==> Fields(t) <= args.Keys
  {
    if t == [] then Some([])
    else
      var init, last := Render(t[..|t| - 1], args), t[|t| - 1];
      if init.Some? && (last.Slot? ==> last.field in args)
      then Some(init.value + Piece(last, args))
      else None
  }

  /** The output is as long as the literal text plus, for every placeholder,
      the text that replaced it. */
  lemma RenderLength(t: Template, args: Args)
    requires Fields(t) <= args.Keys
    ensures |Render(t, args).value| == TextLength(t)
                                      + Occurrences(t, Purpose) * ArgLength(args, Purpose)
                                      + Occurrences(t, Script) * ArgLength(args, Script)
                                      + Occurrences(t, Wpm) * ArgLength(args, Wpm)
  {
    RenderLengthBySlots(t, args);
    SlotLengthByCounts(t, args);
  }

  /** Total length of the arguments that the placeholders of t take. */
  function SlotLength(t: Template, args: Args): nat {
    if t == [] then 0
    else SlotLength(t[..|t| - 1], args) + (if t[|t| - 1].Slot? then ArgLength(args, t[|t| - 1].field) else 0)
  }

  lemma {:induction false} RenderLengthBySlots(t: Template, args: Args)
    requires Fields(t) <= args.Keys
    ensures |Render(t, args).value| == TextLength(t) + SlotLength(t, args)
  {
    if t != [] {
      RenderLengthBySlots(t[..|t| - 1], args);
    }
  }

  lemma {:induction false} SlotLengthByCounts(t: Template, args: Args)
    ensures SlotLength(t, args) == Occurrences(t, Purpose) * ArgLength(args, Purpose)
                                   + Occurrences(t, Script) * ArgLength(args, Script)
                                   + Occurrences(t, Wpm) * ArgLength(args, Wpm)
  {
    if t != [] {
      var init := t[..|t| - 1];
      SlotLengthByCounts(init, args);
      var op, os, ow := Occurrences(init, Purpose), Occurrences(init, Script), Occurrences(init, Wpm);
      var p, s, w := ArgLength(args, Purpose), ArgLength(args, Script), ArgLength(args, Wpm);
      match t[|t| - 1]
      case Text(_) =>
      case Slot(f) =>
        if f == Purpose {
          OneMore(op, p);
        } else if f == Script {
          OneMore(os, s);
        } else {
          OneMore(ow, w);
        }
    }
  }

  lemma OneMore(n: nat, x: nat)
    ensures (n + 1) * x == n * x + x
  {
  }

  /** Rendering two templates one after the other is rendering their
      concatenation. */
  lemma {:induction false} RenderAppend(t1: Template, t2: Template, args: Args)
    ensures Render(t1 + t2, args) ==
      if Render(t1, args).Some? && Render(t2, args).Some?
      then Some(Render(t1, args).value + Render(t2, args).value)
      else None
  {
    if t2 == [] {
      assert t1 + t2 == t1;
      if Render(t1, args).Some? {
        assert Render(t1, args).value + [] == Render(t1, args).value;
      }
    } else {
      var init2, last := t2[..|t2| - 1], t2[|t2| - 1];
      assert t2 == init2 + [last];
      assert t1 + t2 == (t1 + init2) + [last];
      RenderAppend(t1, init2, args);
      RenderSnoc(t1 + init2, last, args);
      RenderSnoc(init2, last, args);
      if Render(t1, args).Some? && Render(t2, args).Some? {
        var a, b, x := Render(t1, args).value, Render(init2, args).value, Piece(last, args);
        assert (a + b) + x == a + (b + x);
      }
    }
  }

  /** One segment more at the end of a template: the output grows by that
      segment's piece. */
  lemma RenderSnoc(init: Template, last: Segment, args: Args)
    ensures Render(init + [last], args) ==
      if Render(init, args).Some? && (last.Slot? ==> last.field in args)
      then Some(Render(init, args).value + Piece(last, args))
      else None
  {
    assert (init + [last])[..|init|] == init;
  }

  /** A template asks for a field exactly when a placeholder for it occurs. */
  lemma {:induction false} FieldsAreCounted(t: Template, f: Field)
    ensures f in Fields(t) <==> Occurrences(t, f) > 0
  {
    if t != [] {
      FieldsAreCounted(t[..|t| - 1], f);
    }
  }

  /** One segment more at the end of a template: its placeholder is counted. */
  lemma OccurrencesSnoc(init: Template, last: Segment, f: Field)
    ensures Occurrences(init + [last], f) == Occurrences(init, f) + (if last == Slot(f) then 1 else 0)
  {
    assert (init + [last])[..|init|] == init;
  }

  /** One segment more at the end of a template: its text is counted. */
  lemma TextLengthSnoc(init: Template, last: Segment)
    ensures TextLength(init + [last]) == TextLength(init) + (if last.Text? then |last.text| else 0)
  {
    assert (init + [last])[..|init|] == init;
  }

  /** Single pass: the k-th segment comes out verbatim, right after the
      rendering of the segments before it, whatever characters (braces
      included) the arguments hold. */
  lemma RenderPlacesEachPiece(t: Template, args: Args, k: nat)
    requires Render(t, args).Some? && k < |t|
    ensures t[k].Slot? ==> t[k].field in args
    ensures Render(t[..k], args).Some?
    ensures var r, o := Render(t, args).value, |Render(t[..k], args).value|;
            o + |Piece(t[k], args)| <= |r| && r[o..o + |Piece(t[k], args)|] == Piece(t[k], args)
  {
    assert t == t[..k + 1] + t[k + 1..];
    RenderAppend(t[..k + 1], t[k + 1..], args);
    assert t[..k + 1][..k] == t[..k];
  }

  /** The output depends only on the arguments of the placeholders the
      template holds: any other argument, given or not, changes nothing. */
  lemma {:induction false} RenderReadsOnlyItsFields(t: Template, a1: Args, a2: Args)
    requires forall f :: f in Fields(t) ==> (f in a1 <==> f in a2) && (f in a1 ==> a1[f] == a2[f])
    ensures Render(t, a1) == Render(t, a2)
  {
    if t != [] {
      RenderReadsOnlyItsFields(t[..|t| - 1], a1, a2);
    }
  }

  /** str(n) for a non-negative integer: its decimal digits, most significant
      first, with no leading zero. */
  function NatDecimal(n: nat): (s: string)
    ensures |s| >= 1 && (s[0] == '0' ==> n == 0 && |s| == 1)
    ensures forall i :: 0 <= i < |s| ==> '0' <= s[i] <= '9'
  {
    if n < 10 then [Digit(n)] else NatDecimal(n / 10) + [Digit(n % 10)]
  }

  function Digit(d: nat): (c: char)
    requires d < 10
    ensures '0' <= c <= '9' && c as int - '0' as int == d
  {
    ('0' as int + d) as char
  }

  /** str(n) for any integer: a minus sign before the digits of a negative n. */
  function Decimal(n: int): string {
    if n < 0 then "-" + NatDecimal(-n) else NatDecimal(n)
  }

  /** The value a string of decimal digits denotes. */
  function DigitsValue(s: string): nat {
    if s == [] then 0
    else
      var c := s[|s| - 1];
      10 * DigitsValue(s[..|s| - 1]) + (if '0' <= c <= '9' then c as int - '0' as int else 0)
  }

  /** The value an optionally signed decimal numeral denotes. */
  function DecimalValue(s: string): int {
    if |s| > 0 && s[0] == '-' then -(DigitsValue(s[1..]) as int) else DigitsValue(s)
  }

  /** Reading back the text that `{wpm}` is replaced by gives wpm again. */
  lemma DecimalRoundTrip(n: int)
    ensures DecimalValue(Decimal(n)) == n
  {
    if n < 0 {
      NatDecimalRoundTrip(-n);
      assert ("-" + NatDecimal(-n))[1..] == NatDecimal(-n);
    } else {
      NatDecimalRoundTrip(n);
    }
  }

  lemma {:induction false} NatDecimalRoundTrip(n: nat)
    ensures DigitsValue(NatDecimal(n)) == n
  {
    if n >= 10 {
      var s := NatDecimal(n);
      assert s[..|s| - 1] == NatDecimal(n / 10);
      NatDecimalRoundTrip(n / 10);
    }
  }

  // The literal text of TONE_PROMPT_TEMPLATE, between its placeholders.
  const Tone0 := "\n당신은 최고의 스피치 코치입니다. 당신의 목표는 사용자에게 "
  const Tone1 := "에 최적화된 발화 및 형식 피드백을 제공하는 것입니다.\n\n[입력 데이터]\n1. 목표 청중/상황: "
  const Tone2 := "\n2. 발화 스크립트: \""
  const Tone3 := "\"\n3. 측정된 발화 속도: 분당 "
  const Tone4 := " 단어\n\n[요구사항]\n1. [발화 속도] "
  const Tone5 := "에 적합한 표준 WPM을 제시하고, 현재 "
  const Tone6 := "이 적절한지 구체적으로 진단하고 개선 방향을 제시하십시오.\n2. [톤앤매너 및 어휘] 스크립트를 분석하여 "
  const Tone7 := "에 부적합한 구어체, 모호한 표현, 반복되거나 비전문적인 어휘 5개 이상을 지적하고, 이를 대체할 전문적인 어휘나 문장 구조를 추천하십시오.\n\n출력은 반드시 Markdown 형식으로 작성하며, 각 섹션에 명확한 소제목을 붙여주십시오.\n"

  /** TONE_PROMPT_TEMPLATE (app.py lines 26-39). */
  const ToneTemplate: Template := [
    Text(Tone0), Slot(Purpose), Text(Tone1), Slot(Purpose), Text(Tone2), Slot(Script),
    Text(Tone3), Slot(Wpm), Text(Tone4), Slot(Purpose), Text(Tone5), Slot(Wpm),
    Text(Tone6), Slot(Purpose), Text(Tone7)]

  // The literal text of LOGIC_PROMPT_TEMPLATE, between its placeholders.
  const Logic0 := "\n당신은 논리 컨설팅 전문가이며, 청중의 질문을 예측하는 훈련된 전략가입니다.\n당신의 목표는 스크립트의 논리적 결함을 찾아내고, 질의응답을 완벽하게 대비시키는 것입니다.\n\n[입력 데이터]\n1. 목표 청중/상황: "
  const Logic1 := "\n2. 발화 스크립트: \""
  /** The three weaknesses the logic report must find. */
  const ThreeWeaknesses := "핵심 약점 3가지"
  /** The three follow-up questions asked about each weakness. */
  const ThreeFollowUps := "꼬리 질문(Follow-up Questions) 3개"
  /** The total the template announces: three questions for each of three
      weaknesses. */
  const NineQuestions := "(총 9개의 질문)"
  const Logic2a := "\"\n\n[요구사항]\n1. [논리 결함 진단] 스크립트 내용을 비판적으로 분석하여, 청중이 의문을 가질 만한 논리적 비약, 근거 부족, 주장의 모호성 등 "
  const Logic2b := "를 찾으십시오. 각 약점은 스크립트 내 해당 부분을 인용하여 명확히 설명하십시오.\n2. [예상 꼬리 질문] 진단된 3가지 논리적 약점 각각을 파고드는, "
  const Logic2 := Logic2a + ThreeWeaknesses + Logic2b
  const Logic3a := "에 적합한 날카로운 "
  const Logic3b := "를 생성하십시오. "
  const Logic3c := "\n3. [개선 방안] 논리 결함을 해소하기 위해 스크립트에 추가해야 할 구체적인 데이터 유형이나 설명 요소를 제시하십시오.\n\n출력은 반드시 Markdown 형식으로 작성하며, 각 섹션에 명확한 소제목을 붙여주십시오.\n"
  const Logic3 := Logic3a + ThreeFollowUps + Logic3b + NineQuestions + Logic3c

  /** LOGIC_PROMPT_TEMPLATE (app.py lines 41-55). */
  const LogicTemplate: Template := [
    Text(Logic0), Slot(Purpose), Text(Logic1), Slot(Script), Text(Logic2), Slot(Purpose),
    Text(Logic3)]

  // Any template laid out like one of the two, whatever its literal text:
  // what it asks for and what it renders to, built one segment at a time.

  /** t is laid out like the tone template, with x0, x1, x2, x3, x4, x5, x6, x7 as its literal text. */
  predicate ToneShaped(t: Template, x0: string, x1: string, x2: string, x3: string, x4: string, x5: string, x6: string, x7: string) {
    t == [Text(x0), Slot(Purpose), Text(x1), Slot(Purpose), Text(x2), Slot(Script), Text(x3), Slot(Wpm), Text(x4), Slot(Purpose), Text(x5), Slot(Wpm), Text(x6), Slot(Purpose), Text(x7)]
  }

  lemma ToneShapedFields(t: Template, x0: string, x1: string, x2: string, x3: string, x4: string, x5: string, x6: string, x7: string)
    requires ToneShaped(t, x0, x1, x2, x3, x4, x5, x6, x7)
    ensures Fields(t) == {Purpose, Script, Wpm}
  {
    forall f: Field
      ensures f in Fields(t) <==> f in {Purpose, Script, Wpm}
    {
      FieldsAreCounted(t, f);
      ToneShapedCounts(t, x0, x1, x2, x3, x4, x5, x6, x7, f);
    }
  }

  /** The first eight segments of the tone layout, up to the first `{wpm}`. */
  lemma ToneHeadCounts(x0: string, x1: string, x2: string, x3: string, f: Field)
    ensures Occurrences([Text(x0), Slot(Purpose), Text(x1), Slot(Purpose), Text(x2), Slot(Script), Text(x3), Slot(Wpm)], f) == if f == Purpose then 2 else 1
  {
    var t0: Template := [];
    var t1 := t0 + [Text(x0)];
    OccurrencesSnoc(t0, Text(x0), f);
    var t2 := t1 + [Slot(Purpose)];
    OccurrencesSnoc(t1, Slot(Purpose), f);
    var t3 := t2 + [Text(x1)];
    OccurrencesSnoc(t2, Text(x1), f);
    var t4 := t3 + [Slot(Purpose)];
    OccurrencesSnoc(t3, Slot(Purpose), f);
    var t5 := t4 + [Text(x2)];
    OccurrencesSnoc(t4, Text(x2), f);
    var t6 := t5 + [Slot(Script)];
    OccurrencesSnoc(t5, Slot(Script), f);
    var t7 := t6 + [Text(x3)];
    OccurrencesSnoc(t6, Text(x3), f);
    var t8 := t7 + [Slot(Wpm)];
    OccurrencesSnoc(t7, Slot(Wpm), f);
    assert t8 == [Text(x0), Slot(Purpose), Text(x1), Slot(Purpose), Text(x2), Slot(Script), Text(x3), Slot(Wpm)];
  }

  lemma ToneHeadTextLength(x0: string, x1: string, x2: string, x3: string)
    ensures TextLength([Text(x0), Slot(Purpose), Text(x1), Slot(Purpose), Text(x2), Slot(Script), Text(x3), Slot(Wpm)]) == |x0| + |x1| + |x2| + |x3|
  {
    var t0: Template := [];
    var t1 := t0 + [Text(x0)];
    TextLengthSnoc(t0, Text(x0));
    var t2 := t1 + [Slot(Purpose)];
    TextLengthSnoc(t1, Slot(Purpose));
    var t3 := t2 + [Text(x1)];
    TextLengthSnoc(t2, Text(x1));
    var t4 := t3 + [Slot(Purpose)];
    TextLengthSnoc(t3, Slot(Purpose));
    var t5 := t4 + [Text(x2)];
    TextLengthSnoc(t4, Text(x2));
    var t6 := t5 + [Slot(Script)];
    TextLengthSnoc(t5, Slot(Script));
    var t7 := t6 + [Text(x3)];
    TextLengthSnoc(t6, Text(x3));
    var t8 := t7 + [Slot(Wpm)];
    TextLengthSnoc(t7, Slot(Wpm));
    assert t8 == [Text(x0), Slot(Purpose), Text(x1), Slot(Purpose), Text(x2), Slot(Script), Text(x3), Slot(Wpm)];
  }

  lemma ToneHeadRenders(x0: string, x1: string, x2: string, x3: string, purpose: string, script: string, wpm: string, args: Args)
    requires Purpose in args && args[Purpose] == purpose
    requires Script in args && args[Script] == script
    requires Wpm in args && args[Wpm] == wpm
    ensures Render([Text(x0), Slot(Purpose), Text(x1), Slot(Purpose), Text(x2), Slot(Script), Text(x3), Slot(Wpm)], args) == Some(x0 + purpose + x1 + purpose + x2 + script + x3 + wpm)
  {
    var t0: Template := [];
    var t1 := t0 + [Text(x0)];
    RenderSnoc(t0, Text(x0), args);
    var t2 := t1 + [Slot(Purpose)];
    RenderSnoc(t1, Slot(Purpose), args);
    var t3 := t2 + [Text(x1)];
    RenderSnoc(t2, Text(x1), args);
    var t4 := t3 + [Slot(Purpose)];
    RenderSnoc(t3, Slot(Purpose), args);
    var t5 := t4 + [Text(x2)];
    RenderSnoc(t4, Text(x2), args);
    var t6 := t5 + [Slot(Script)];
    RenderSnoc(t5, Slot(Script), args);
    var t7 := t6 + [Text(x3)];
    RenderSnoc(t6, Text(x3), args);
    var t8 := t7 + [Slot(Wpm)];
    RenderSnoc(t7, Slot(Wpm), args);
    assert [] + x0 == x0;
    assert t8 == [Text(x0), Slot(Purpose), Text(x1), Slot(Purpose), Text(x2), Slot(Script), Text(x3), Slot(Wpm)];
  }

  lemma ToneShapedCounts(t: Template, x0: string, x1: string, x2: string, x3: string, x4: string, x5: string, x6: string, x7: string, f: Field)
    requires ToneShaped(t, x0, x1, x2, x3, x4, x5, x6, x7)
    ensures Occurrences(t, f) == if f == Purpose then 4 else if f == Script then 1 else 2
  {
    ToneHeadCounts(x0, x1, x2, x3, f);
    var t8: Template := [Text(x0), Slot(Purpose), Text(x1), Slot(Purpose), Text(x2), Slot(Script), Text(x3), Slot(Wpm)];
    var t9 := t8 + [Text(x4)];
    OccurrencesSnoc(t8, Text(x4), f);
    var t10 := t9 + [Slot(Purpose)];
    OccurrencesSnoc(t9, Slot(Purpose), f);
    var t11 := t10 + [Text(x5)];
    OccurrencesSnoc(t10, Text(x5), f);
    var t12 := t11 + [Slot(Wpm)];
    OccurrencesSnoc(t11, Slot(Wpm), f);
    var t13 := t12 + [Text(x6)];
    OccurrencesSnoc(t12, Text(x6), f);
    var t14 := t13 + [Slot(Purpose)];
    OccurrencesSnoc(t13, Slot(Purpose), f);
    var t15 := t14 + [Text(x7)];
    OccurrencesSnoc(t14, Text(x7), f);
    assert t15 == t;
  }

  lemma ToneShapedTextLength(t: Template, x0: string, x1: string, x2: string, x3: string, x4: string, x5: string, x6: string, x7: string)
    requires ToneShaped(t, x0, x1, x2, x3, x4, x5, x6, x7)
    ensures TextLength(t) == |x0| + |x1| + |x2| + |x3| + |x4| + |x5| + |x6| + |x7|
  {
    ToneHeadTextLength(x0, x1, x2, x3);
    var t8: Template := [Text(x0), Slot(Purpose), Text(x1), Slot(Purpose), Text(x2), Slot(Script), Text(x3), Slot(Wpm)];
    var t9 := t8 + [Text(x4)];
    TextLengthSnoc(t8, Text(x4));
    var t10 := t9 + [Slot(Purpose)];
    TextLengthSnoc(t9, Slot(Purpose));
    var t11 := t10 + [Text(x5)];
    TextLengthSnoc(t10, Text(x5));
    var t12 := t11 + [Slot(Wpm)];
    TextLengthSnoc(t11, Slot(Wpm));
    var t13 := t12 + [Text(x6)];
    TextLengthSnoc(t12, Text(x6));
    var t14 := t13 + [Slot(Purpose)];
    TextLengthSnoc(t13, Slot(Purpose));
    var t15 := t14 + [Text(x7)];
    TextLengthSnoc(t14, Text(x7));
    assert t15 == t;
  }

  lemma ToneShapedRenders(t: Template, x0: string, x1: string, x2: string, x3: string, x4: string, x5: string, x6: string, x7: string, purpose: string, script: string, wpm: string, args: Args)
    requires ToneShaped(t, x0, x1, x2, x3, x4, x5, x6, x7)
    requires Purpose in args && args[Purpose] == purpose
    requires Script in args && args[Script] == script
    requires Wpm in args && args[Wpm] == wpm
    ensures Render(t, args) == Some(x0 + purpose + x1 + purpose + x2 + script + x3 + wpm + x4 + purpose + x5 + wpm + x6 + purpose + x7)
  {
    ToneHeadRenders(x0, x1, x2, x3, purpose, script, wpm, args);
    var t8: Template := [Text(x0), Slot(Purpose), Text(x1), Slot(Purpose), Text(x2), Slot(Script), Text(x3), Slot(Wpm)];
    var t9 := t8 + [Text(x4)];
    RenderSnoc(t8, Text(x4), args);
    var t10 := t9 + [Slot(Purpose)];
    RenderSnoc(t9, Slot(Purpose), args);
    var t11 := t10 + [Text(x5)];
    RenderSnoc(t10, Text(x5), args);
    var t12 := t11 + [Slot(Wpm)];
    RenderSnoc(t11, Slot(Wpm), args);
    var t13 := t12 + [Text(x6)];
    RenderSnoc(t12, Text(x6), args);
    var t14 := t13 + [Slot(Purpose)];
    RenderSnoc(t13, Slot(Purpose), args);
    var t15 := t14 + [Text(x7)];
    RenderSnoc(t14, Text(x7), args);
    assert t15 == t;
  }

  /** t is laid out like the logic template, with x0, x1, x2, x3 as its literal text. */
  predicate LogicShaped(t: Template, x0: string, x1: string, x2: string, x3: string) {
    t == [Text(x0), Slot(Purpose), Text(x1), Slot(Script), Text(x2), Slot(Purpose), Text(x3)]
  }

  lemma LogicShapedFields(t: Template, x0: string, x1: string, x2: string, x3: string)
    requires LogicShaped(t, x0, x1, x2, x3)
    ensures Fields(t) == {Purpose, Script}
  {
    forall f: Field
      ensures f in Fields(t) <==> f in {Purpose, Script}
    {
      FieldsAreCounted(t, f);
      LogicShapedCounts(t, x0, x1, x2, x3, f);
    }
  }

  lemma LogicShapedCounts(t: Template, x0: string, x1: string, x2: string, x3: string, f: Field)
    requires LogicShaped(t, x0, x1, x2, x3)
    ensures Occurrences(t, f) == if f == Purpose then 2 else if f == Script then 1 else 0
  {
    var t0: Template := [];
    var t1 := t0 + [Text(x0)];
    OccurrencesSnoc(t0, Text(x0), f);
    var t2 := t1 + [Slot(Purpose)];
    OccurrencesSnoc(t1, Slot(Purpose), f);
    var t3 := t2 + [Text(x1)];
    OccurrencesSnoc(t2, Text(x1), f);
    var t4 := t3 + [Slot(Script)];
    OccurrencesSnoc(t3, Slot(Script), f);
    var t5 := t4 + [Text(x2)];
    OccurrencesSnoc(t4, Text(x2), f);
    var t6 := t5 + [Slot(Purpose)];
    OccurrencesSnoc(t5, Slot(Purpose), f);
    var t7 := t6 + [Text(x3)];
    OccurrencesSnoc(t6, Text(x3), f);
    assert t7 == t;
  }

  lemma LogicShapedTextLength(t: Template, x0: string, x1: string, x2: string, x3: string)
    requires LogicShaped(t, x0, x1, x2, x3)
    ensures TextLength(t) == |x0| + |x1| + |x2| + |x3|
  {
    var t0: Template := [];
    var t1 := t0 + [Text(x0)];
    TextLengthSnoc(t0, Text(x0));
    var t2 := t1 + [Slot(Purpose)];
    TextLengthSnoc(t1, Slot(Purpose));
    var t3 := t2 + [Text(x1)];
    TextLengthSnoc(t2, Text(x1));
    var t4 := t3 + [Slot(Script)];
    TextLengthSnoc(t3, Slot(Script));
    var t5 := t4 + [Text(x2)];
    TextLengthSnoc(t4, Text(x2));
    var t6 := t5 + [Slot(Purpose)];
    TextLengthSnoc(t5, Slot(Purpose));
    var t7 := t6 + [Text(x3)];
    TextLengthSnoc(t6, Text(x3));
    assert t7 == t;
  }

  lemma LogicShapedRenders(t: Template, x0: string, x1: string, x2: string, x3: string, purpose: string, script: string, args: Args)
    requires LogicShaped(t, x0, x1, x2, x3)
    requires Purpose in args && args[Purpose] == purpose
    requires Script in args && args[Script] == script
    ensures Render(t, args) == Some(x0 + purpose + x1 + script + x2 + purpose + x3)
  {
    var t0: Template := [];
    var t1 := t0 + [Text(x0)];
    RenderSnoc(t0, Text(x0), args);
    var t2 := t1 + [Slot(Purpose)];
    RenderSnoc(t1, Slot(Purpose), args);
    var t3 := t2 + [Text(x1)];
    RenderSnoc(t2, Text(x1), args);
    var t4 := t3 + [Slot(Script)];
    RenderSnoc(t3, Slot(Script), args);
    var t5 := t4 + [Text(x2)];
    RenderSnoc(t4, Text(x2), args);
    var t6 := t5 + [Slot(Purpose)];
    RenderSnoc(t5, Slot(Purpose), args);
    var t7 := t6 + [Text(x3)];
    RenderSnoc(t6, Text(x3), args);
    assert t7 == t;
    assert [] + x0 == x0;
  }

  /** TONE_PROMPT_TEMPLATE asks for `{purpose}`, `{script}` and `{wpm}` and
      for nothing else. */
  lemma ToneTemplateFields()
    ensures Fields(ToneTemplate) == {Purpose, Script, Wpm}
  {
    ToneShapedFields(ToneTemplate, Tone0, Tone1, Tone2, Tone3, Tone4, Tone5, Tone6, Tone7);
  }

  /** `{purpose}` occurs four times in TONE_PROMPT_TEMPLATE, `{script}` once
      and `{wpm}` twice. */
  lemma ToneTemplateCounts()
    ensures Occurrences(ToneTemplate, Purpose) == 4
    ensures Occurrences(ToneTemplate, Script) == 1
    ensures Occurrences(ToneTemplate, Wpm) == 2
  {
    ToneShapedCounts(ToneTemplate, Tone0, Tone1, Tone2, Tone3, Tone4, Tone5, Tone6, Tone7, Purpose);
    ToneShapedCounts(ToneTemplate, Tone0, Tone1, Tone2, Tone3, Tone4, Tone5, Tone6, Tone7, Script);
    ToneShapedCounts(ToneTemplate, Tone0, Tone1, Tone2, Tone3, Tone4, Tone5, Tone6, Tone7, Wpm);
  }

  /** LOGIC_PROMPT_TEMPLATE asks for `{purpose}` and `{script}` only: it has
      no `{wpm}`. */
  lemma LogicTemplateFields()
    ensures Fields(LogicTemplate) == {Purpose, Script}
  {
    LogicShapedFields(LogicTemplate, Logic0, Logic1, Logic2, Logic3);
  }

  /** `{purpose}` occurs twice in LOGIC_PROMPT_TEMPLATE, `{script}` once and
      `{wpm}` never. */
  lemma LogicTemplateCounts()
    ensures Occurrences(LogicTemplate, Purpose) == 2
    ensures Occurrences(LogicTemplate, Script) == 1
    ensures Occurrences(LogicTemplate, Wpm) == 0
  {
    LogicShapedCounts(LogicTemplate, Logic0, Logic1, Logic2, Logic3, Purpose);
    LogicShapedCounts(LogicTemplate, Logic0, Logic1, Logic2, Logic3, Script);
    LogicShapedCounts(LogicTemplate, Logic0, Logic1, Logic2, Logic3, Wpm);
  }

  /** The literal text of the tone template is 357 characters long. */
  lemma ToneTextLength()
    ensures TextLength(ToneTemplate) == 357
  {
    ToneShapedTextLength(ToneTemplate, Tone0, Tone1, Tone2, Tone3, Tone4, Tone5, Tone6, Tone7);
  }

  /** The literal text of the logic template is 491 characters long. */
  lemma LogicTextLength()
    ensures TextLength(LogicTemplate) == 491
  {
    LogicShapedTextLength(LogicTemplate, Logic0, Logic1, Logic2, Logic3);
  }

  /** The keyword arguments of `TONE_PROMPT_TEMPLATE.format(purpose=purpose,
      script=script, wpm=wpm)`: `{wpm}` is replaced by `str(wpm)`. */
  function ToneArgs(purpose: string, script: string, wpm: int): Args {
    map[Purpose := purpose, Script := script, Wpm := Decimal(wpm)]
  }

  /** The keyword arguments of `LOGIC_PROMPT_TEMPLATE.format(purpose=purpose,
      script=script)`. */
  function LogicArgs(purpose: string, script: string): Args {
    map[Purpose := purpose, Script := script]
  }

  /** The tone prompt (app.py line 95): `TONE_PROMPT_TEMPLATE.format(...)`,
      which cannot fail since every placeholder has its argument. */
  function TonePrompt(purpose: string, script: string, wpm: int): string {
    TonePromptSpelledOut(purpose, script, Decimal(wpm), ToneArgs(purpose, script, wpm));
    Render(ToneTemplate, ToneArgs(purpose, script, wpm)).value
  }

  /** The tone prompt is the template text with every placeholder replaced
      verbatim by its argument, the rate written in decimal. */
  lemma TonePromptText(purpose: string, script: string, wpm: int)
    ensures TonePrompt(purpose, script, wpm)
         == Tone0 + purpose + Tone1 + purpose + Tone2 + script + Tone3 + Decimal(wpm)
            + Tone4 + purpose + Tone5 + Decimal(wpm) + Tone6 + purpose + Tone7
  {
    TonePromptSpelledOut(purpose, script, Decimal(wpm), ToneArgs(purpose, script, wpm));
  }

  /** The tone template is filled from `purpose`, `script` and the rate's
      digits alone, whatever else the arguments hold. */
  lemma TonePromptSpelledOut(purpose: string, script: string, wpm: string, args: Args)
    requires Purpose in args && args[Purpose] == purpose
    requires Script in args && args[Script] == script
    requires Wpm in args && args[Wpm] == wpm
    ensures Render(ToneTemplate, args)
         == Some(Tone0 + purpose + Tone1 + purpose + Tone2 + script + Tone3 + wpm
              + Tone4 + purpose + Tone5 + wpm + Tone6 + purpose + Tone7)
  {
    ToneShapedRenders(ToneTemplate, Tone0, Tone1, Tone2, Tone3, Tone4, Tone5, Tone6, Tone7, purpose, script, wpm, args);
  }

  /** The logic prompt (app.py line 102): `LOGIC_PROMPT_TEMPLATE.format(...)`,
      which cannot fail since every placeholder has its argument. */
  function LogicPrompt(purpose: string, script: string): string {
    LogicPromptSpelledOut(purpose, script, LogicArgs(purpose, script));
    Render(LogicTemplate, LogicArgs(purpose, script)).value
  }

  /** The logic prompt is the template text with every placeholder replaced
      verbatim by its argument. */
  lemma LogicPromptText(purpose: string, script: string)
    ensures LogicPrompt(purpose, script) == Logic0 + purpose + Logic1 + script + Logic2 + purpose + Logic3
  {
    LogicPromptSpelledOut(purpose, script, LogicArgs(purpose, script));
  }

  /** Whatever else the arguments hold, the logic template is filled from
      `purpose` and `script` alone. */
  lemma LogicPromptSpelledOut(purpose: string, script: string, args: Args)
    requires Purpose in args && args[Purpose] == purpose
    requires Script in args && args[Script] == script
    ensures Render(LogicTemplate, args)
         == Some(Logic0 + purpose + Logic1 + script + Logic2 + purpose + Logic3)
  {
    LogicShapedRenders(LogicTemplate, Logic0, Logic1, Logic2, Logic3, purpose, script, args);
  }

  /** The logic prompt does not depend on the speaking rate: even if `wpm`
      were passed to its `.format` call, two rates give the same prompt. */
  lemma LogicPromptIgnoresWpm(purpose: string, script: string, wpm1: int, wpm2: int)
    ensures Render(LogicTemplate, ToneArgs(purpose, script, wpm1))
         == Render(LogicTemplate, ToneArgs(purpose, script, wpm2))
         == Some(LogicPrompt(purpose, script))
  {
    LogicTemplateFields();
    RenderReadsOnlyItsFields(LogicTemplate, ToneArgs(purpose, script, wpm1), LogicArgs(purpose, script));
    RenderReadsOnlyItsFields(LogicTemplate, ToneArgs(purpose, script, wpm2), LogicArgs(purpose, script));
  }

  /** The tone prompt is the template's literal text plus four copies of the
      purpose, one of the script and two of the rate's digits. */
  lemma TonePromptLength(purpose: string, script: string, wpm: int)
    ensures |TonePrompt(purpose, script, wpm)|
         == 357 + 4 * |purpose| + |script| + 2 * |Decimal(wpm)|
  {
    ToneTemplateFields();
    ToneTemplateCounts();
    ToneTextLength();
    RenderLength(ToneTemplate, ToneArgs(purpose, script, wpm));
  }

  /** The logic prompt is the template's literal text plus two copies of the
      purpose and one of the script. */
  lemma LogicPromptLength(purpose: string, script: string)
    ensures |LogicPrompt(purpose, script)| == 491 + 2 * |purpose| + |script|
  {
    LogicTemplateFields();
    LogicTemplateCounts();
    LogicTextLength();
    RenderLength(LogicTemplate, LogicArgs(purpose, script));
  }

  /** u sits in s at position i. */
  predicate OccursAt(s: string, u: string, i: int) {
    0 <= i && i + |u| <= |s| && s[i..i + |u|] == u
  }

  /** u occurs in s as a contiguous piece. */
  predicate Contains(s: string, u: string) {
    exists i :: 0 <= i <= |s| && OccursAt(s, u, i)
  }

  /** A rendered template contains the argument of each of its placeholders. */
  lemma ShowsSlot(t: Template, args: Args, k: nat)
    requires Render(t, args).Some? && k < |t| && t[k].Slot? && t[k].field in args
    ensures Contains(Render(t, args).value, args[t[k].field])
  {
    RenderPlacesEachPiece(t, args, k);
    assert OccursAt(Render(t, args).value, args[t[k].field], |Render(t[..k], args).value|);
  }

  /** The tone prompt shows the purpose, the script and the decimal digits
      of the rate, each as given: braces inside them are not expanded. */
  lemma TonePromptShowsInputs(purpose: string, script: string, wpm: int)
    ensures Contains(TonePrompt(purpose, script, wpm), purpose)
    ensures Contains(TonePrompt(purpose, script, wpm), script)
    ensures Contains(TonePrompt(purpose, script, wpm), Decimal(wpm))
  {
    var args := ToneArgs(purpose, script, wpm);
    TonePromptSpelledOut(purpose, script, Decimal(wpm), args);
    assert TonePrompt(purpose, script, wpm) == Render(ToneTemplate, args).value;
    assert args[Purpose] == purpose && args[Script] == script && args[Wpm] == Decimal(wpm);
    assert ToneTemplate[1] == Slot(Purpose) && ToneTemplate[5] == Slot(Script) && ToneTemplate[7] == Slot(Wpm);
    ShowsSlot(ToneTemplate, args, 1);
    ShowsSlot(ToneTemplate, args, 5);
    ShowsSlot(ToneTemplate, args, 7);
  }

  /** The logic prompt shows the purpose and the script, each as given. */
  lemma LogicPromptShowsInputs(purpose: string, script: string)
    ensures Contains(LogicPrompt(purpose, script), purpose)
    ensures Contains(LogicPrompt(purpose, script), script)
  {
    var args := LogicArgs(purpose, script);
    LogicPromptSpelledOut(purpose, script, args);
    assert LogicPrompt(purpose, script) == Render(LogicTemplate, args).value;
    assert LogicTemplate[1] == Slot(Purpose) && LogicTemplate[3] == Slot(Script);
    ShowsSlot(LogicTemplate, args, 1);
    ShowsSlot(LogicTemplate, args, 3);
  }

  /** A piece of the middle part is a piece of the whole. */
  lemma ContainsIn(a: string, b: string, c: string, u: string)
    requires Contains(b, u)
    ensures Contains(a + b + c, u)
  {
    var i :| 0 <= i <= |b| && OccursAt(b, u, i);
    assert (a + b + c)[|a| + i..|a| + i + |u|] == b[i..i + |u|];
    assert OccursAt(a + b + c, u, |a| + i);
  }

  /** A text laid out as the logic prompt is, over any pieces, contains the
      pieces inside its last two literal parts. */
  lemma LogicShapedShows(x0: string, p: string, x1: string, s: string,
                         x2a: string, w: string, x2b: string,
                         x3a: string, f: string, x3b: string, n: string, x3c: string)
    ensures Contains(x0 + p + x1 + s + (x2a + w + x2b) + p + (x3a + f + x3b + n + x3c), w)
    ensures Contains(x0 + p + x1 + s + (x2a + w + x2b) + p + (x3a + f + x3b + n + x3c), f)
    ensures Contains(x0 + p + x1 + s + (x2a + w + x2b) + p + (x3a + f + x3b + n + x3c), n)
  {
    var whole := x0 + p + x1 + s + (x2a + w + x2b) + p + (x3a + f + x3b + n + x3c);
    var head := x0 + p + x1 + s;
    var tail := head + (x2a + w + x2b) + p;
    assert OccursAt(w, w, 0) && OccursAt(f, f, 0) && OccursAt(n, n, 0);
    assert whole == (head + x2a) + w + (x2b + p + (x3a + f + x3b + n + x3c));
    ContainsIn(head + x2a, w, x2b + p + (x3a + f + x3b + n + x3c), w);
    assert whole == (tail + x3a) + f + (x3b + n + x3c);
    ContainsIn(tail + x3a, f, x3b + n + x3c, f);
    assert whole == (tail + x3a + f + x3b) + n + x3c;
    ContainsIn(tail + x3a + f + x3b, n, x3c, n);
  }

  /** The logic prompt asks for three weaknesses, three follow-up questions
      on each, and announces nine questions in all, whatever the purpose and
      the script. The number of improvement suggestions is left open. */
  lemma LogicPromptAsksNineQuestions(purpose: string, script: string)
    ensures Contains(LogicPrompt(purpose, script), ThreeWeaknesses)
    ensures Contains(LogicPrompt(purpose, script), ThreeFollowUps)
    ensures Contains(LogicPrompt(purpose, script), NineQuestions)
  {
    LogicPromptText(purpose, script);
    LogicShapedShows(Logic0, purpose, Logic1, script, Logic2a, ThreeWeaknesses, Logic2b,
                     Logic3a, ThreeFollowUps, Logic3b, NineQuestions, Logic3c);
  }

  /** A measured rate of 140 appears in the tone prompt as the text "140". */
  lemma RateOf140Shown(purpose: string, script: string)
    ensures Contains(TonePrompt(purpose, script, 140), "140")
  {
    assert Decimal(140) == "140";
    TonePromptShowsInputs(purpose, script, 140);
  }
}
