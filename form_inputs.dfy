/** The input helpers of the customer form in ClientesList.jsx: the CPF, phone
    and CEP masks applied on every keystroke, and `formatDateInput`, which
    ProdutosList.jsx defines identically. */
module FormInputs {
  import opened Wrappers
  import opened Text

  // ---------------------------------------------------------------------
  // formatDateInput
  // ---------------------------------------------------------------------

  /** `value.split(sep)[0]`: the text before the first `sep`, or all of it. */
  function BeforeFirst(s: string, sep: char): (r: string)
    ensures StartsWith(s, r) && sep !in r
    ensures |r| == |s| || s[|r|] == sep
  {
    if s == [] || s[0] == sep then [] else [s[0]] + BeforeFirst(s[1..], sep)
  }

  /** A falsy value (missing, null or '') gives ''; otherwise the date part of an
      ISO timestamp, i.e. the text before the first 'T'. */
  function FormatDateInput(value: Option<string>): (r: string)
    ensures value.None? ==> r == ""
    ensures value.Some? ==> StartsWith(value.value, r) && 'T' !in r
    ensures value.Some? ==> |r| == |value.value| || value.value[|r|] == 'T'
  {
    if value.None? || value.value == "" then "" else BeforeFirst(value.value, 'T')
  }

  /** The three properties of FormatDateInput determine it: any prefix free of
      'T' that reaches the end of the value or stops at a 'T' is the result. */
  lemma FormatDateInputUnique(value: string, r: string)
    requires StartsWith(value, r) && 'T' !in r
    requires |r| == |value| || value[|r|] == 'T'
    ensures FormatDateInput(Some(value)) == r
  {
    var f := FormatDateInput(Some(value));
    assert |f| == |r|;
    assert f == value[..|f|] == r;
  }

  // ---------------------------------------------------------------------
  // formatarCpf
  // ---------------------------------------------------------------------

  /** Characters the CPF mask may produce: digits and the separators it inserts. */
  predicate CpfChar(c: char) {
    IsDigit(c) || c == '.' || c == '-'
  }

  predicate CpfText(s: string) {
    forall i | 0 <= i < |s| :: CpfChar(s[i])
  }

  /** Digits joined by a separator stay CPF text. */
  lemma CpfJoin(a: string, sep: char, b: string)
    requires CpfText(a) && CpfChar(sep) && AllDigits(b)
    ensures CpfText(a + [sep] + b)
  {
  }

  /** `formatarCpf`: keep the first eleven digits, then mask by length. The last
      `replace` needs all eleven digits; with exactly ten it does not match and
      the digits come back unmasked. */
  function FormatarCpf(value: string): (r: string)
    ensures CpfText(r)
    ensures |r| <= 14
  {
    var v := Take(Digits(value), 11);
    if |v| <= 3 then v
    else if |v| <= 6 then
      CpfJoin(v[..3], '.', v[3..]);
      v[..3] + "." + v[3..]
    else if |v| <= 9 then
      CpfJoin(v[..3], '.', v[3..6]);
      CpfJoin(v[..3] + "." + v[3..6], '.', v[6..]);
      v[..3] + "." + v[3..6] + "." + v[6..]
    else if |v| == 11 then
      CpfJoin(v[..3], '.', v[3..6]);
      CpfJoin(v[..3] + "." + v[3..6], '.', v[6..9]);
      CpfJoin(v[..3] + "." + v[3..6] + "." + v[6..9], '-', v[9..]);
      v[..3] + "." + v[3..6] + "." + v[6..9] + "-" + v[9..]
    else v
  }

  /** The digits of `a.b`, `a.b.c` and `a.b.c-d`, for digit strings. */
  lemma {:induction false} CpfGroupDigits(a: string, b: string, c: string, d: string)
    requires AllDigits(a) && AllDigits(b) && AllDigits(c) && AllDigits(d)
    ensures Digits(a + "." + b) == a + b
    ensures Digits(a + "." + b + "." + c) == a + b + c
    ensures Digits(a + "." + b + "." + c + "-" + d) == a + b + c + d
  {
    DigitsOfAllDigits(a);
    DigitsAfterSeparator(a, ".", b);
    DigitsAfterSeparator(a + "." + b, ".", c);
    DigitsAfterSeparator(a + "." + b + "." + c, "-", d);
  }

  /** Only separators are inserted: the digits of the result are the first
      eleven digits of the input. */
  lemma {:induction false} FormatarCpfDigits(value: string)
    ensures Digits(FormatarCpf(value)) == Take(Digits(value), 11)
  {
    var v := Take(Digits(value), 11);
    var r := FormatarCpf(value);
    if |v| <= 3 || |v| == 10 {
      assert r == v;
      DigitsOfAllDigits(v);
    } else if |v| <= 6 {
      assert r == v[..3] + "." + v[3..];
      CpfGroupDigits(v[..3], v[3..], "", "");
      assert v[..3] + v[3..] == v;
    } else if |v| <= 9 {
      assert r == v[..3] + "." + v[3..6] + "." + v[6..];
      CpfGroupDigits(v[..3], v[3..6], v[6..], "");
      assert v[..3] + v[3..6] + v[6..] == v;
    } else {
      assert r == v[..3] + "." + v[3..6] + "." + v[6..9] + "-" + v[9..];
      CpfGroupDigits(v[..3], v[3..6], v[6..9], v[9..]);
      assert v[..3] + v[3..6] + v[6..9] + v[9..] == v;
    }
  }


  /** Where the separators go, by the number `n` of digits kept. */
  lemma FormatarCpfMask(value: string)
    ensures var v := Take(Digits(value), 11); var r := FormatarCpf(value);
      && (|v| <= 3 ==> r == v)
      && (4 <= |v| <= 6 ==> |r| == |v| + 1 && r[3] == '.')
      && (7 <= |v| <= 9 ==> |r| == |v| + 2 && r[3] == '.' && r[7] == '.')
      && (|v| == 10 ==> r == v)
      && (|v| == 11 ==> |r| == 14 && r[3] == '.' && r[7] == '.' && r[11] == '-')
  {
  }

  /** The mask depends only on the digits kept, so masking a masked value changes nothing. */
  lemma {:induction false} FormatarCpfIdempotent(value: string)
    ensures FormatarCpf(FormatarCpf(value)) == FormatarCpf(value)
  {
    FormatarCpfDigits(value);
  }

  /** As written: going from nine digits to ten, the display loses its mask, so
      the text shown for nine digits is not a prefix of the text for ten. */
  lemma {:induction false} FormatarCpfTenDigitsUnmasked(v: string, c: char)
    requires AllDigits(v) && |v| == 9 && IsDigit(c)
    ensures FormatarCpf(v + [c]) == v + [c]
    ensures !StartsWith(FormatarCpf(v + [c]), FormatarCpf(v))
  {
    DigitsOfAllDigits(v);
    assert AllDigits(v + [c]);
    DigitsOfAllDigits(v + [c]);
  }

  /** The CPF mask as evidently intended: from seven digits on, the third group
      and the check digits are separated as soon as they are typed, so ten
      digits show as `ddd.ddd.ddd-d`. */
  function FormatarCpfCorrected(value: string): (r: string)
    ensures CpfText(r)
    ensures |r| <= 14
  {
    var v := Take(Digits(value), 11);
    if |v| <= 3 then v
    else if |v| <= 6 then
      CpfJoin(v[..3], '.', v[3..]);
      v[..3] + "." + v[3..]
    else if |v| <= 9 then
      CpfJoin(v[..3], '.', v[3..6]);
      CpfJoin(v[..3] + "." + v[3..6], '.', v[6..]);
      v[..3] + "." + v[3..6] + "." + v[6..]
    else
      CpfJoin(v[..3], '.', v[3..6]);
      CpfJoin(v[..3] + "." + v[3..6], '.', v[6..9]);
      CpfJoin(v[..3] + "." + v[3..6] + "." + v[6..9], '-', v[9..]);
      v[..3] + "." + v[3..6] + "." + v[6..9] + "-" + v[9..]
  }

  /** Corrected mask: typing one more digit only extends what is shown. */
  lemma {:induction false} FormatarCpfCorrectedExtends(v: string, c: char)
    requires AllDigits(v) && |v| < 11 && IsDigit(c)
    ensures StartsWith(FormatarCpfCorrected(v + [c]), FormatarCpfCorrected(v))
  {
    var w := v + [c];
    DigitsOfAllDigits(v);
    assert AllDigits(w);
    DigitsOfAllDigits(w);
    var a, b := FormatarCpfCorrected(v), FormatarCpfCorrected(w);
    assert w[..|v|] == v;
    if |v| < 3 {
    } else if |v| < 6 {
      assert w[..3] == v[..3];
      assert w[3..] == v[3..] + [c];
    } else if |v| < 9 {
      assert w[..3] == v[..3] && w[3..6] == v[3..6];
      if |v| == 6 {
        assert a == v[..3] + "." + v[3..];
      } else {
        assert w[6..] == v[6..] + [c];
      }
    } else {
      assert w[..3] == v[..3] && w[3..6] == v[3..6] && w[6..9] == v[6..9];
      if |v| == 9 {
        assert a == v[..3] + "." + v[3..6] + "." + v[6..];
      } else {
        assert w[9..] == v[9..] + [c];
      }
    }
    assert b[..|a|] == a;
  }

  // ---------------------------------------------------------------------
  // formatarTelefone
  // ---------------------------------------------------------------------

  /** `formatarTelefone`: area code in parentheses, then a hyphen before the last
      four digits; from eleven digits on, the mobile layout `(dd) ddddd-dddd`
      and any further digits dropped. */
  function FormatarTelefone(value: string): (r: string)
    ensures |r| >= 1 && r[0] == '('
    ensures |r| <= 15
  {
    var v := Digits(value);
    if |v| <= 2 then "(" + v
    else if |v| <= 6 then "(" + v[..2] + ") " + v[2..]
    else if |v| <= 10 then "(" + v[..2] + ") " + v[2..6] + "-" + v[6..]
    else "(" + v[..2] + ") " + v[2..7] + "-" + v[7..11]
  }

  /** The digits of `(a) b`, for digit strings `a` and `b`. */
  lemma {:induction false} PhoneDigits(a: string, b: string)
    requires AllDigits(a) && AllDigits(b)
    ensures Digits("(" + a + ") " + b) == a + b
  {
    assert NoDigits(") ") && NoDigits("(");
    DigitsAppend("(", a);
    DigitsOfNoDigits("(");
    DigitsOfAllDigits(a);
    DigitsAfterSeparator("(" + a, ") ", b);
  }

  /** The digits of `(a) b-c`, for digit strings `a`, `b` and `c`. */
  lemma {:induction false} PhoneDigitsHyphen(a: string, b: string, c: string)
    requires AllDigits(a) && AllDigits(b) && AllDigits(c)
    ensures Digits("(" + a + ") " + b + "-" + c) == a + b + c
  {
    DigitsAfterSeparator("(" + a + ") " + b, "-", c);
    PhoneDigits(a, b);
  }

  /** Only punctuation is inserted: the digits of the result are the first
      eleven digits of the input. */
  lemma {:induction false} FormatarTelefoneDigits(value: string)
    ensures Digits(FormatarTelefone(value)) == Take(Digits(value), 11)
  {
    var v := Digits(value);
    var r := FormatarTelefone(value);
    if |v| <= 2 {
      assert r == "(" + v;
      DigitsAfterSeparator("", "(", v);
      DigitsOfAllDigits(v);
      assert "" + "(" + v == r;
    } else if |v| <= 6 {
      assert r == "(" + v[..2] + ") " + v[2..];
      PhoneDigits(v[..2], v[2..]);
      assert v[..2] + v[2..] == v;
    } else if |v| <= 10 {
      assert r == "(" + v[..2] + ") " + v[2..6] + "-" + v[6..];
      PhoneDigitsHyphen(v[..2], v[2..6], v[6..]);
      assert v[..2] + v[2..6] + v[6..] == v;
    } else {
      assert r == "(" + v[..2] + ") " + v[2..7] + "-" + v[7..11];
      PhoneDigitsHyphen(v[..2], v[2..7], v[7..11]);
      assert v[..2] + v[2..7] + v[7..11] == v[..11];
    }
  }

  /** Where the punctuation goes, by the number of digits. */
  lemma FormatarTelefoneMask(value: string)
    ensures var v := Digits(value); var r := FormatarTelefone(value);
      && (|v| <= 2 ==> r == "(" + v)
      && (3 <= |v| <= 6 ==> |r| == |v| + 3 && r[3..5] == ") ")
      && (7 <= |v| <= 10 ==> |r| == |v| + 4 && r[3..5] == ") " && r[9] == '-')
      && (11 <= |v| ==> |r| == 15 && r[3..5] == ") " && r[10] == '-')
  {
  }

  /** Masking a masked phone number changes nothing. */
  lemma {:induction false} FormatarTelefoneIdempotent(value: string)
    ensures FormatarTelefone(FormatarTelefone(value)) == FormatarTelefone(value)
  {
    FormatarTelefoneDigits(value);
    var v := Digits(value);
    if |v| > 11 {
      assert v[..11][..2] == v[..2] && v[..11][2..7] == v[2..7] && v[..11][7..11] == v[7..11];
    }
  }

  // ---------------------------------------------------------------------
  // formatarCep
  // ---------------------------------------------------------------------

  /** `formatarCep`: the first eight digits, with a hyphen after the fifth once
      there is a sixth. */
  function FormatarCep(value: string): (r: string)
    ensures |r| == |Take(Digits(value), 8)| + (if |Digits(value)| > 5 then 1 else 0)
    ensures |r| <= 9
    ensures forall i | 0 <= i < |r| :: IsDigit(r[i]) || r[i] == '-'
    ensures '-' in r <==> |Digits(value)| > 5
  {
    var d := Take(Digits(value), 8);
    if |d| <= 5 then d else d[..5] + "-" + d[5..]
  }

  /** Only the hyphen is inserted: the digits of the result are the first eight
      digits of the input, and the hyphen, when present, sits at index 5. */
  lemma {:induction false} FormatarCepDigits(value: string)
    ensures Digits(FormatarCep(value)) == Take(Digits(value), 8)
    ensures |Digits(value)| > 5 ==> FormatarCep(value)[5] == '-'
  {
    var d := Take(Digits(value), 8);
    DigitsOfAllDigits(d);
    if |d| > 5 {
      assert FormatarCep(value) == d[..5] + "-" + d[5..];
      DigitsAfterSeparator(d[..5], "-", d[5..]);
      DigitsOfAllDigits(d[..5]);
      assert d[..5] + d[5..] == d;
    }
  }

  /** Masking a masked CEP changes nothing. */
  lemma {:induction false} FormatarCepIdempotent(value: string)
    ensures FormatarCep(FormatarCep(value)) == FormatarCep(value)
  {
    FormatarCepDigits(value);
  }
}
