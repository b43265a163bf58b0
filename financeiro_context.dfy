/**
 * The shared period and store of the front-end
 * (financeiro-frontend/src/contexts/FinanceiroContext.tsx): the initial
 * state, the `YYYY-MM` competence string shown in month inputs, and the
 * update from such an input. The localised period label is not modelled.
 */
module FinanceiroContexto {

  import opened Text

  /** `dataCompetenciaISO`: the year, a dash, and the month padded to two digits. */
  function FormatarISO(ano: int, mes: int): string
  {
    IntToString(ano) + "-" + PadStart2(IntToString(mes))
  }

  /**
   * What a month input may hand to `atualizarPeriodoPorInput` besides the
   * empty string: at least two dash-separated parts, the first two of them
   * decimal numerals (possibly empty, which `Number` reads as 0).
   */
  predicate EntradaDeMes(s: string)
  {
    var partes := Split(s, '-');
    |partes| >= 2 && IsDigits(partes[0]) && IsDigits(partes[1])
  }

  /** `isoValue.split('-').map(Number)`, first two parts, as (year, month). */
  function LerISO(s: string): (int, int)
    requires EntradaDeMes(s)
  {
    var partes := Split(s, '-');
    (ParseNat(partes[0]), ParseNat(partes[1]))
  }

  /** The shared state of `FinanceiroProvider`. */
  class FinanceiroContext {
    var lojaId: int
    var mes: int
    var ano: int

    /** The initial state: store 1 and the current month; the clock's zero-based month and its year are parameters. */
    constructor(mesDoRelogio: int, anoDoRelogio: int)
      requires 0 <= mesDoRelogio <= 11
      ensures lojaId == 1 && mes == mesDoRelogio + 1 && ano == anoDoRelogio
      ensures 1 <= mes <= 12
    {
      lojaId := 1;
      mes := mesDoRelogio + 1;
      ano := anoDoRelogio;
    }

    /** The competence string of the current period. */
    function DataCompetenciaISO(): string
      reads this
    {
      FormatarISO(ano, mes)
    }

    /**
     * `atualizarPeriodoPorInput`: an empty value changes nothing; otherwise
     * year and month are read from the first two parts, with no range check.
     */
    method AtualizarPeriodoPorInput(isoValue: string)
      requires isoValue == "" || EntradaDeMes(isoValue)
      modifies this
      ensures isoValue == "" ==> ano == old(ano) && mes == old(mes)
      ensures isoValue != "" ==> (ano, mes) == LerISO(isoValue)
      ensures lojaId == old(lojaId)
    {
      if isoValue == "" {
        return;
      }
      var partes := Split(isoValue, '-');
      var y := ParseNat(partes[0]);
      var m := ParseNat(partes[1]);
      ano := y;
      mes := m;
    }
  }

  /** Padding with a zero does not change the value of a numeral. */
  lemma PadStart2Valor(s: string)
    requires IsDigits(s)
    ensures IsDigits(PadStart2(s)) && ParseNat(PadStart2(s)) == ParseNat(s)
  {
    if |s| == 1 {
      assert PadStart2(s) == "0" + s;
      ParseNatLeadingZero(s);
    } else if |s| == 0 {
      assert PadStart2(s) == "0" + "0";
      ParseNatLeadingZero("");
      ParseNatLeadingZero("0");
    }
  }

  /** Reading the competence string back gives the period, for any year from 0 and any month from 0 (13 included). */
  lemma FormatarLerIdaEVolta(ano: int, mes: int)
    requires ano >= 0 && mes >= 0
    ensures EntradaDeMes(FormatarISO(ano, mes))
    ensures LerISO(FormatarISO(ano, mes)) == (ano, mes)
  {
    var a := IntToString(ano);
    var m := PadStart2(IntToString(mes));
    PadStart2Valor(IntToString(mes));
    assert '-' !in a;
    assert '-' !in m;
    assert FormatarISO(ano, mes) == a + ['-'] + m;
    SplitAt(a, m, '-');
    SplitNoSep(m, '-');
    ParseNatToString(ano);
    ParseNatToString(mes);
  }

  /** A negative year does not survive the round trip: year -5, March reads back as year 0, month 5. */
  lemma AnoNegativoNaoVolta()
    ensures FormatarISO(-5, 3) == "-5-03"
    ensures EntradaDeMes("-5-03") && LerISO("-5-03") == (0, 5)
  {
    assert IntToString(-5) == "-5";
    assert IntToString(3) == "3";
    assert PadStart2("3") == "03";
    SplitAt("", "5-03", '-');
    SplitAt("5", "03", '-');
    SplitNoSep("03", '-');
    assert Split("-5-03", '-') == ["", "5", "03"] by {
      assert "-5-03" == "" + ['-'] + "5-03";
      assert "5-03" == "5" + ['-'] + "03";
    }
    assert ParseNat("03") == 3 by {
      assert "03"[..1] == "0";
    }
  }

  /** The update checks no range: "2024-13" is read as month 13 of 2024. */
  lemma MesTrezeAceito()
    ensures EntradaDeMes("2024-13") && LerISO("2024-13") == (2024, 13)
  {
    SplitAt("2024", "13", '-');
    SplitNoSep("13", '-');
    assert Split("2024-13", '-') == ["2024", "13"] by {
      assert "2024-13" == "2024" + ['-'] + "13";
    }
    assert ParseNat("13") == 13 by {
      assert "13"[..1] == "1";
    }
    assert ParseNat("2024") == 2024 by {
      assert "2024"[..3] == "202";
      assert "202"[..2] == "20";
      assert "20"[..1] == "2";
    }
  }

  /**
   * A valid month string of the HTML Living Standard (section 2.3.5.1):
   * four or more digits for a year above 0, a dash, two digits for a month
   * from 1 to 12.
   */
  predicate MesHtmlValido(s: string)
  {
    |s| >= 7 &&
    var k := |s| - 3;
    IsDigits(s[..k]) && s[k] == '-' && IsDigits(s[k + 1..])
    && ParseNat(s[..k]) > 0 && 1 <= ParseNat(s[k + 1..]) <= 12
  }

  /** A year of four digits or more has a numeral of four characters or more. */
  lemma NumeralDeAnoLongo(n: nat)
    requires n >= 1000
    ensures |NatToString(n)| >= 4
  {
    assert NatToString(n) == NatToString(n / 10) + [DigitChar(n % 10)];
    assert NatToString(n / 10) == NatToString(n / 100) + [DigitChar((n / 10) % 10)];
    assert |NatToString(n / 100)| >= 2;
  }

  /** A month up to 99 has a numeral of at most two characters. */
  lemma NumeralDeMesCurto(n: nat)
    requires n < 100
    ensures |NatToString(n)| <= 2
  {
    if n >= 10 {
      assert NatToString(n) == NatToString(n / 10) + [DigitChar(n % 10)];
    }
  }

  /** A year numeral of four digits or more, a dash and a two-digit month numeral, both in range, make a valid month string. */
  lemma MesHtmlDePartes(a: string, m: string)
    requires IsDigits(a) && |a| >= 4 && ParseNat(a) > 0
    requires IsDigits(m) && |m| == 2 && 1 <= ParseNat(m) <= 12
    ensures MesHtmlValido(a + ['-'] + m)
  {
    var s := a + ['-'] + m;
    assert s[..|s| - 3] == a;
    assert s[|s| - 2..] == m;
  }

  /** From year 1000 on, the competence string of a month 1..12 is a valid HTML month string. */
  lemma FormatoMesHtml(ano: int, mes: int)
    requires ano >= 1000 && 1 <= mes <= 12
    ensures MesHtmlValido(FormatarISO(ano, mes))
  {
    var a := IntToString(ano);
    var m := PadStart2(IntToString(mes));
    NumeralDeAnoLongo(ano);
    NumeralDeMesCurto(mes);
    PadStart2Valor(IntToString(mes));
    ParseNatToString(ano);
    ParseNatToString(mes);
    assert FormatarISO(ano, mes) == a + ['-'] + m;
    MesHtmlDePartes(a, m);
  }

  /** Before year 1000 it is not: year 999 gives "999-01", whose year has three digits. */
  lemma AnoDeTresDigitos()
    ensures FormatarISO(999, 1) == "999-01"
    ensures !MesHtmlValido(FormatarISO(999, 1))
  {
    assert IntToString(999) == "999" by {
      assert NatToString(99) == "99";
    }
    assert PadStart2("1") == "01";
  }

  /** Any valid HTML month string is accepted and read into a year above 0 and a month in 1..12. */
  lemma LerMesHtml(s: string)
    requires MesHtmlValido(s)
    ensures EntradaDeMes(s)
    ensures LerISO(s).0 > 0 && 1 <= LerISO(s).1 <= 12
  {
    var k := |s| - 3;
    var a := s[..k];
    var m := s[k + 1..];
    assert s == a + ['-'] + m;
    assert '-' !in a by {
      assert forall i :: 0 <= i < |a| ==> IsDigit(a[i]);
    }
    assert '-' !in m by {
      assert forall i :: 0 <= i < |m| ==> IsDigit(m[i]);
    }
    SplitAt(a, m, '-');
    SplitNoSep(m, '-');
  }
}
