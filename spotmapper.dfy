/** The field mapper: from a SPOT catalog record to the payload of OMIE's product
    registration call, including the correction of known-bad NCM (tariff) codes. */
module SpotMapper {
  import opened PyValues

  /** A SPOT product as decoded from the catalog: field name to scalar value. */
  type SpotProduct = map<string, Scalar>

  /** The constant correction table `NCM_CORRECTIONS`. */
  const NcmCorrections: map<string, string> := map[
    "96171000" := "90251990",
    "9617.10.00" := "9025.19.90",
    "96081099" := "96081000",
    "9608.10.99" := "9608.10.00",
    "9608109900" := "96081000"
  ]

  /** An NCM code has 8 digits; longer normalised codes are cut to this length. */
  const NcmLength: nat := 8

  /** The longest `descricao` OMIE accepts. */
  const DescricaoLength: nat := 120

  predicate DotFree(s: string)
  {
    '.' !in s
  }

  /** `s.replace(".", "")`. */
  function StripDots(s: string): string
  {
    if s == [] then [] else (if s[0] == '.' then [] else [s[0]]) + StripDots(s[1..])
  }

  /** Removing the dots leaves no dot and never lengthens the string. */
  lemma {:induction false} StripDotsDotFree(s: string)
    ensures DotFree(StripDots(s)) && |StripDots(s)| <= |s|
  {
    if s != [] {
      StripDotsDotFree(s[1..]);
    }
  }

  /** A string without dots is left as it is. */
  lemma {:induction false} DotFreeFixed(s: string)
    requires DotFree(s)
    ensures StripDots(s) == s
  {
    if s != [] {
      DotFreeFixed(s[1..]);
      assert s == [s[0]] + s[1..];
    }
  }

  /** Removing dots distributes over concatenation, so the remaining characters keep
      their order. */
  lemma {:induction false} StripDotsConcat(a: string, b: string)
    ensures StripDots(a + b) == StripDots(a) + StripDots(b)
  {
    if a != [] {
      assert (a + b)[0] == a[0];
      assert (a + b)[1..] == a[1..] + b;
      StripDotsConcat(a[1..], b);
    } else {
      assert a + b == b;
    }
  }

  lemma StripDotsDot(s: string)
    ensures StripDots(['.'] + s) == StripDots(s)
  {
    assert (['.'] + s)[1..] == s;
  }

  /** A dot followed by a dot-free part: only the dot goes. */
  lemma StripDotsJoinTail(x: string, c: string)
    requires DotFree(c)
    ensures StripDots(x + "." + c) == StripDots(x) + c
  {
    DotFreeFixed(c);
    assert x + "." + c == x + (['.'] + c);
    StripDotsConcat(x, ['.'] + c);
    StripDotsDot(c);
  }

  /** Removing the dots of two dot-free parts joined by one dot joins the parts. */
  lemma StripDotsJoin(a: string, b: string)
    requires DotFree(a) && DotFree(b)
    ensures StripDots(a + "." + b) == a + b
  {
    DotFreeFixed(a);
    StripDotsJoinTail(a, b);
  }

  /** Removing the dots of a code written "aaaa.bb.cc". */
  lemma StripDotsDotted(a: string, b: string, c: string)
    requires DotFree(a) && DotFree(b) && DotFree(c)
    ensures StripDots(a + "." + b + "." + c) == a + b + c
  {
    StripDotsJoinTail(a + "." + b, c);
    StripDotsJoin(a, b);
  }

  /** Removing the dots and keeping at most `NcmLength` characters (lines 26-31 of
      app/spot_mapper.py). */
  function Normalize(ncm: string): (r: string)
    ensures DotFree(r) && |r| <= NcmLength
  {
    StripDotsDotFree(ncm);
    var n := StripDots(ncm);
    if |n| > NcmLength then n[..NcmLength] else n
  }

  /** Normalising keeps the first `NcmLength` characters of the dot-free form. */
  lemma NormalizeKeepsPrefix(ncm: string)
    ensures |Normalize(ncm)| <= |StripDots(ncm)|
    ensures Normalize(ncm) == StripDots(ncm)[..|Normalize(ncm)|]
    ensures |StripDots(ncm)| > NcmLength ==> |Normalize(ncm)| == NcmLength
    ensures |StripDots(ncm)| <= NcmLength ==> Normalize(ncm) == StripDots(ncm)
  {
  }

  /** A dot-free code longer than `NcmLength` is cut to its first `NcmLength`
      characters. */
  lemma NormalizeLong(a: string, b: string)
    requires DotFree(a) && DotFree(b) && |a| == NcmLength
    ensures Normalize(a + b) == a
  {
    DotFreeFixed(a);
    DotFreeFixed(b);
    StripDotsConcat(a, b);
    assert (a + b)[..NcmLength] == a;
  }

  /** A dot-free code of at most `NcmLength` characters is already normalised. */
  lemma NormalizeDotFree(ncm: string)
    requires DotFree(ncm) && |ncm| <= NcmLength
    ensures Normalize(ncm) == ncm
  {
    DotFreeFixed(ncm);
  }

  /** `fix_ncm` on a string argument, branch for branch. */
  function FixNcmText(ncm: string): string
  {
    if ncm == "" then ncm
    else
      var normalized := Normalize(ncm);
      if normalized in NcmCorrections then NcmCorrections[normalized]
      else if ncm in NcmCorrections then NcmCorrections[ncm]
      else normalized
  }

  /** The errors the mapper raises: an attribute missing on a value of the given type
      (`None.strip()`, `5.replace(...)`), or an operand of the given type that `/`
      does not accept. */
  datatype MapError =
    | NoAttribute(typeName: string, attribute: string)
    | BadOperand(typeName: string)

  /** `fix_ncm` on whatever the `Taric` field holds: a falsy value comes back as is,
      a string is corrected, and any other truthy value has no `replace` method. */
  function FixNcm(ncm: Scalar): (r: Result<Scalar, MapError>)
    ensures !Truthy(ncm) ==> r == Ok(ncm)
    ensures Truthy(ncm) && ncm.JStr? ==> r == Ok(JStr(FixNcmText(ncm.s)))
    ensures r.Err? <==> Truthy(ncm) && !ncm.JStr?
    ensures r.Err? ==> r.error == NoAttribute(TypeName(ncm), "replace")
  {
    if !Truthy(ncm) then Ok(ncm)
    else if ncm.JStr? then Ok(JStr(FixNcmText(ncm.s)))
    else Err(NoAttribute(TypeName(ncm), "replace"))
  }

  /** Every key of the table normalises to a key of the table, so the lookup of the
      original (dotted) form at lines 39-43 of app/spot_mapper.py can never be reached. */
  lemma KeysNormalizeToKeys(key: string)
    requires key in NcmCorrections
    ensures Normalize(key) in NcmCorrections
  {
    if |key| == 8 {
      if key == "96171000" {
        NormalizeKey96171000();
      } else {
        assert key == "96081099";
        NormalizeKey96081099();
      }
    } else if key[4] == '.' {
      if key == "9617.10.00" {
        NormalizeKey9617Dotted();
      } else {
        assert key == "9608.10.99";
        NormalizeKey9608Dotted();
      }
    } else {
      assert key == "9608109900";
      NormalizeKey9608109900();
    }
  }

  /** A code whose first character is not '9' is not a key of the table. */
  lemma NotKeyByFirstDigit(n: string)
    requires n != [] && n[0] != '9'
    ensures n !in NcmCorrections
  {
  }

  /** "96081000", which 96081099 is corrected to, is not a key of the table. */
  lemma NotKey96081000()
    ensures "96081000" !in NcmCorrections
  {
    var n := "96081000";
    assert n != "96171000" by { assert n[2] != "96171000"[2]; }
    assert n != "96081099" by { assert n[6] != "96081099"[6]; }
    assert |n| == 8 && |"9617.10.00"| == 10 && |"9608.10.99"| == 10 && |"9608109900"| == 10;
  }

  /** "90251990", which 96171000 is corrected to, is not a key of the table. */
  lemma NotKey90251990()
    ensures "90251990" !in NcmCorrections
  {
    var n := "90251990";
    assert n != "96171000" && n != "96081099" by { assert n[1] == '0'; }
    assert |n| == 8 && |"9617.10.00"| == 10 && |"9608.10.99"| == 10 && |"9608109900"| == 10;
  }

  lemma NormalizeKey96171000()
    ensures Normalize("96171000") == "96171000"
  {
    NormalizeDotFree("96171000");
  }

  lemma NormalizeKey96081099()
    ensures Normalize("96081099") == "96081099"
  {
    NormalizeDotFree("96081099");
  }

  lemma NormalizeKey9617Dotted()
    ensures Normalize("9617.10.00") == "96171000"
  {
    StripDotted9617();
    NormalizeShort("9617.10.00", "96171000");
  }

  lemma NormalizeKey9608Dotted()
    ensures Normalize("9608.10.99") == "96081099"
  {
    StripDotted9608();
    NormalizeShort("9608.10.99", "96081099");
  }

  lemma NormalizeKey9608109900()
    ensures Normalize("9608109900") == "96081099"
  {
    assert "9608109900" == "96081099" + "00";
    NormalizeLong("96081099", "00");
  }

  lemma StripDotted9617()
    ensures StripDots("9617.10.00") == "96171000"
  {
    assert "9617.10.00" == "9617" + "." + "10" + "." + "00";
    StripDotsDotted("9617", "10", "00");
    assert "9617" + "10" + "00" == "96171000";
  }

  lemma StripDotted9608()
    ensures StripDots("9608.10.99") == "96081099"
  {
    assert "9608.10.99" == "9608" + "." + "10" + "." + "99";
    StripDotsDotted("9608", "10", "99");
    assert "9608" + "10" + "99" == "96081099";
  }

  lemma NormalizeShort(ncm: string, n: string)
    requires StripDots(ncm) == n && |n| <= NcmLength
    ensures Normalize(ncm) == n
  {
  }

  /** The dot-free keys of at most 8 characters, and what they are corrected to. */
  lemma ShortKeys(n: string)
    requires DotFree(n) && |n| <= NcmLength && n in NcmCorrections
    ensures n == "96171000" || n == "96081099"
    ensures NcmCorrections[n] == "90251990" || NcmCorrections[n] == "96081000"
  {
    assert "9617.10.00"[4] == '.';
    assert "9608.10.99"[4] == '.';
  }

  /** With this table `fix_ncm` is a lookup of the normalised form, falling back to the
      normalised form itself. */
  lemma FixNcmTableForm(ncm: string)
    ensures FixNcmText(ncm) == if Normalize(ncm) in NcmCorrections
                               then NcmCorrections[Normalize(ncm)] else Normalize(ncm)
  {
    if ncm in NcmCorrections {
      KeysNormalizeToKeys(ncm);
    }
  }

  /** Every input comes back dot-free and at most 8 characters long: the only
      corrections that can fire produce 8-digit codes. */
  lemma FixNcmShape(ncm: string)
    ensures DotFree(FixNcmText(ncm)) && |FixNcmText(ncm)| <= NcmLength
  {
    FixNcmTableForm(ncm);
    var n := Normalize(ncm);
    if n in NcmCorrections {
      ShortKeys(n);
      CorrectedCodesAreFixed();
    }
  }

  /** Normalisation is a fixpoint on its own output. */
  lemma NormalizeIdempotent(ncm: string)
    ensures Normalize(Normalize(ncm)) == Normalize(ncm)
  {
    NormalizeDotFree(Normalize(ncm));
  }

  /** The codes that corrections produce are dot-free 8-digit codes that no
      correction touches again. */
  lemma CorrectedCodesAreFixed()
    ensures DotFree("90251990") && DotFree("96081000")
    ensures FixNcmText("90251990") == "90251990"
    ensures FixNcmText("96081000") == "96081000"
  {
    NotKey90251990();
    FixNcmUnknownPassesThrough("90251990");
    NotKey96081000();
    FixNcmUnknownPassesThrough("96081000");
  }

  /** `fix_ncm` is idempotent: no value it produces is corrected again. */
  lemma FixNcmIdempotent(ncm: string)
    ensures FixNcmText(FixNcmText(ncm)) == FixNcmText(ncm)
  {
    if ncm != "" {
      FixNcmTableForm(ncm);
      var n := Normalize(ncm);
      if n in NcmCorrections {
        ShortKeys(n);
        CorrectedCodesAreFixed();
      } else if n != "" {
        NormalizeIdempotent(ncm);
        FixNcmTableForm(n);
      }
    }
  }

  /** A dot-free code of at most 8 characters that is not in the table passes through
      unchanged. */
  lemma FixNcmUnknownPassesThrough(ncm: string)
    requires DotFree(ncm) && |ncm| <= NcmLength && ncm !in NcmCorrections
    ensures FixNcmText(ncm) == ncm
  {
    NormalizeDotFree(ncm);
  }

  /** The concrete corrections: both spellings of 9617.10.00 give "90251990", the
      10-digit 9608109900 is cut to "96081099" and corrected to "96081000", an unknown
      8-digit code stays, and an unknown 10-digit code is cut to 8 digits. */
  lemma FixNcmExamples()
    ensures FixNcmText("96171000") == "90251990"
    ensures FixNcmText("9617.10.00") == "90251990"
    ensures FixNcmText("9608109900") == "96081000"
    ensures FixNcmText("12345678") == "12345678"
    ensures FixNcmText("1234567890") == "12345678"
  {
    FixNcm96171000();
    FixNcm9617Dotted();
    FixNcm9608109900();
    FixNcm12345678();
    FixNcm1234567890();
  }

  lemma FixNcm96171000()
    ensures FixNcmText("96171000") == "90251990"
  {
    NormalizeKey96171000();
  }

  lemma FixNcm9617Dotted()
    ensures FixNcmText("9617.10.00") == "90251990"
  {
    NormalizeKey9617Dotted();
  }

  lemma FixNcm9608109900()
    ensures FixNcmText("9608109900") == "96081000"
  {
    NormalizeKey9608109900();
  }

  lemma FixNcm12345678()
    ensures FixNcmText("12345678") == "12345678"
  {
    FixNcmUnknownPassesThrough("12345678");
  }

  lemma Normalize1234567890()
    ensures Normalize("1234567890") == "12345678"
  {
    assert "1234567890" == "12345678" + "90";
    NormalizeLong("12345678", "90");
  }

  lemma FixNcm1234567890()
    ensures FixNcmText("1234567890") == "12345678"
  {
    Normalize1234567890();
    NotKeyByFirstDigit("12345678");
    NotKeyByFirstDigit("1234567890");
  }

  /** `round(Weight / 1000, 3)` for a weight in whole grams (with `bool` counting as
      0 or 1, as Python's `int` subclass); any other value fails the division. The
      quotient of whole grams by 1000 already has three decimals, so the rounding
      changes nothing on exact reals. */
  function WeightKg(weight: Scalar): (r: Result<real, MapError>)
    ensures weight.JNum? ==> r == Ok(weight.n as real / 1000.0)
    ensures weight.JBool? ==> r == Ok(if weight.b then 0.001 else 0.0)
    ensures r.Err? <==> weight.JNull? || weight.JStr?
  {
    match weight
    case JNum(n) => Ok(n as real / 1000.0)
    case JBool(b) => Ok(if b then 0.001 else 0.0)
    case _ => Err(BadOperand(TypeName(weight)))
  }

  /** The OMIE payload that `map_spot_to_omie` builds. */
  datatype OmiePayload = OmiePayload(
    codigo: Scalar,
    codigoProdutoIntegracao: Scalar,
    descricao: string,
    descrDetalhada: Scalar,
    ncm: Scalar,
    pesoBruto: real,
    unidade: string,
    importadoApi: string)

  /** The untruncated display text "{Name} - Cor: {color} - Codigo: {ProdReference}". */
  function DisplayText(name: Scalar, color: string, code: Scalar): string
  {
    Str(name) + " - Cor: " + color + " - Codigo: " + Str(code)
  }

  function ProdReference(p: SpotProduct): Scalar
  {
    GetOr(p, "ProdReference", JNull)
  }

  /** `map_spot_to_omie`. Fields are read in the order of the source, so the first
      failing step decides the error. */
  function MapSpotToOmie(p: SpotProduct): (r: Result<OmiePayload, MapError>)
    ensures !GetOr(p, "Colors", JNull).JStr? ==>
              r == Err(NoAttribute(TypeName(GetOr(p, "Colors", JNull)), "strip"))
    ensures r.Ok? <==> GetOr(p, "Colors", JNull).JStr?
                       && FixNcm(GetOr(p, "Taric", JNull)).Ok?
                       && WeightKg(GetOr(p, "Weight", JNum(0))).Ok?
    ensures r.Ok? ==>
              && r.value.codigo == ProdReference(p)
              && r.value.codigoProdutoIntegracao == ProdReference(p)
              && r.value.descrDetalhada == GetOr(p, "Description", JNull)
              && r.value.ncm == FixNcm(GetOr(p, "Taric", JNull)).value
              && r.value.pesoBruto == WeightKg(GetOr(p, "Weight", JNum(0))).value
              && r.value.unidade == "UN"
              && r.value.importadoApi == "S"
    ensures r.Ok? ==>
              var full := DisplayText(GetOr(p, "Name", JNull), Strip(GetOr(p, "Colors", JNull).s),
                                      ProdReference(p));
              && |r.value.descricao| <= DescricaoLength && |r.value.descricao| <= |full|
              && r.value.descricao == full[..|r.value.descricao|]
              && (|r.value.descricao| == DescricaoLength || r.value.descricao == full)
  {
    var code := ProdReference(p);
    var colors := GetOr(p, "Colors", JNull);
    if !colors.JStr? then Err(NoAttribute(TypeName(colors), "strip"))
    else
      var cor := Strip(colors.s);
      var name := GetOr(p, "Name", JNull);
      var detail := GetOr(p, "Description", JNull);
      match FixNcm(GetOr(p, "Taric", JNull))
      case Err(e) => Err(e)
      case Ok(ncm) =>
        match WeightKg(GetOr(p, "Weight", JNum(0)))
        case Err(e) => Err(e)
        case Ok(kg) =>
          var text := DisplayText(name, cor, code);
          Ok(OmiePayload(code, code, Take(text, DescricaoLength), detail, ncm, kg, "UN", "S"))
  }

  /** A Colors value that is nothing but whitespace leaves "Cor: " with no value. */
  lemma BlankColorsLeaveEmptyCor(p: SpotProduct)
    requires GetOr(p, "Colors", JNull).JStr? && AllSpace(GetOr(p, "Colors", JNull).s)
    requires MapSpotToOmie(p).Ok?
    ensures var d := MapSpotToOmie(p).value.descricao;
            var prefix := Str(GetOr(p, "Name", JNull)) + " - Cor:  - Codigo: ";
            d == Take(prefix + Str(ProdReference(p)), DescricaoLength)
  {
    var colors := GetOr(p, "Colors", JNull).s;
    assert Strip(colors) == "";
    var name, code := GetOr(p, "Name", JNull), ProdReference(p);
    MapDescricao(p);
    EmptyColorText(name, code);
  }

  /** The description is the display text cut to 120 characters. */
  lemma MapDescricao(p: SpotProduct)
    requires MapSpotToOmie(p).Ok?
    ensures MapSpotToOmie(p).value.descricao
            == Take(DisplayText(GetOr(p, "Name", JNull), Strip(GetOr(p, "Colors", JNull).s), ProdReference(p)),
                    DescricaoLength)
  {
  }

  lemma EmptyColorText(name: Scalar, code: Scalar)
    ensures DisplayText(name, "", code) == Str(name) + " - Cor:  - Codigo: " + Str(code)
  {
  }

  /** The catalog record in tests/test_spot_mapper.py. */
  function BasicRecord(): SpotProduct
  {
    map["ProdReference" := JStr("TEST123"), "Name" := JStr("Copo T\U{e9}rmico"),
        "Colors" := JStr("Preto"), "Description" := JStr("Copo t\U{e9}rmico de alta qualidade"),
        "Taric" := JStr("12345678"), "Weight" := JNum(390)]
  }

  lemma BasicRecordFields()
    ensures GetOr(BasicRecord(), "Colors", JNull) == JStr("Preto")
    ensures GetOr(BasicRecord(), "Taric", JNull) == JStr("12345678")
    ensures GetOr(BasicRecord(), "Weight", JNum(0)) == JNum(390)
    ensures GetOr(BasicRecord(), "Name", JNull) == JStr("Copo T\U{e9}rmico")
    ensures GetOr(BasicRecord(), "Description", JNull) == JStr("Copo t\U{e9}rmico de alta qualidade")
    ensures ProdReference(BasicRecord()) == JStr("TEST123")
  {
  }

  /** The mapping of that record, as the code computes it (the display text ends with
      the " - Codigo: ..." part). */
  lemma MapBasicRecord()
    ensures MapSpotToOmie(BasicRecord()) == Ok(OmiePayload(
              JStr("TEST123"), JStr("TEST123"),
              "Copo T\U{e9}rmico" + " - Cor: " + "Preto" + " - Codigo: " + "TEST123",
              JStr("Copo t\U{e9}rmico de alta qualidade"), JStr("12345678"), 0.39, "UN", "S"))
  {
    BasicRecordFields();
    StripPreto();
    FixNcm12345678();
    BasicDisplayText();
  }

  lemma StripPreto()
    ensures Strip("Preto") == "Preto"
  {
    assert "Preto"[0] == 'P' && "Preto"[4] == 'o';
    StripUnpadded("Preto");
  }

  lemma BasicDisplayText()
    ensures Take(DisplayText(JStr("Copo T\U{e9}rmico"), "Preto", JStr("TEST123")), DescricaoLength)
            == "Copo T\U{e9}rmico" + " - Cor: " + "Preto" + " - Codigo: " + "TEST123"
  {
  }
}
