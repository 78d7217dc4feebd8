/**
 * The export step: when the "Générer le devis" and "Télécharger le
 * document" buttons let it through, which document is produced and under
 * which file name.
 */
module Export {
  import opened Wrappers
  import opened Catalog
  import opened Pricing
  import opened QuoteDocument

  const MinTjm: real := 1000.0

  // The two string operations of the file name.

  /** `sep` occurs in `s` at index `i`. */
  predicate OccursAt(s: string, sep: string, i: nat)
  {
    i + |sep| <= |s| && s[i..i + |sep|] == sep
  }

  /**
   * `s.split(sep)[0]`: the text before the first occurrence of `sep`, or
   * the whole of `s` when `sep` does not occur.
   */
  function SplitHead(s: string, sep: string): (r: string)
    requires sep != []
    ensures |r| <= |s| && r == s[..|r|]
    ensures forall i :: 0 <= i < |r| ==> !OccursAt(s, sep, i)
    ensures |r| == |s| || OccursAt(s, sep, |r|)
    decreases |s|
  {
    if |s| < |sep| then s
    else if s[..|sep|] == sep then []
    else
      var rest := SplitHead(s[1..], sep);
      forall i | 0 < i <= |rest| ensures OccursAt(s, sep, i) <==> OccursAt(s[1..], sep, i - 1) {
        OccursShift(s, sep, i);
      }
      [s[0]] + rest
  }

  lemma OccursShift(s: string, sep: string, i: nat)
    requires 0 < i <= |s|
    ensures OccursAt(s, sep, i) <==> OccursAt(s[1..], sep, i - 1)
  {
    if i + |sep| <= |s| {
      assert s[1..][i - 1..i - 1 + |sep|] == s[i..i + |sep|];
    }
  }

  /** A character the `\s` class of a JavaScript regular expression matches. */
  predicate IsSpace(c: char)
  {
    || c == ' ' || c == '\t' || c == '\n' || c == '\r' || c == '\U{B}' || c == '\U{C}'
    || c == '\U{A0}' || c == '\U{1680}' || ('\U{2000}' <= c <= '\U{200A}')
    || c == '\U{2028}' || c == '\U{2029}' || c == '\U{202F}' || c == '\U{205F}'
    || c == '\U{3000}' || c == '\U{FEFF}'
  }

  predicate NoSpace(s: string)
  {
    forall i :: 0 <= i < |s| ==> !IsSpace(s[i])
  }

  predicate AllSpace(s: string)
  {
    forall i :: 0 <= i < |s| ==> IsSpace(s[i])
  }

  /** `s` with its leading whitespace removed. */
  function TrimStart(s: string): (r: string)
    ensures |r| <= |s| && r == s[|s| - |r|..]
    ensures r == [] || !IsSpace(r[0])
    ensures forall i :: 0 <= i < |s| - |r| ==> IsSpace(s[i])
  {
    if s != [] && IsSpace(s[0]) then TrimStart(s[1..]) else s
  }

  /** `s.replace(/\s+/g, "_")`: every run of whitespace becomes one '_'. */
  function Underscored(s: string): (r: string)
    ensures NoSpace(r)
    ensures |r| <= |s|
    decreases |s|
  {
    if s == [] then []
    else if IsSpace(s[0]) then
      var rest := Underscored(TrimStart(s[1..]));
      NoSpaceCons('_', rest);
      "_" + rest
    else
      var rest := Underscored(s[1..]);
      NoSpaceCons(s[0], rest);
      [s[0]] + rest
  }

  lemma NoSpaceCons(c: char, s: string)
    requires !IsSpace(c) && NoSpace(s)
    ensures NoSpace([c] + s)
  {
    forall i | 0 <= i < |[c] + s| ensures !IsSpace(([c] + s)[i]) {
      if i > 0 {
        assert ([c] + s)[i] == s[i - 1];
      }
    }
  }

  /** `Devis_<client>_<offering>.docx`, with the offering taken from the quotation label. */
  function FileName(clientName: string, formation: string): string
  {
    "Devis_" + clientName + "_" + Underscored(SplitHead(formation, " - ")) + ".docx"
  }

  // Lemmas about the file name.

  /** Text without whitespace is left as it is. */
  lemma {:induction false} UnderscoredNoSpace(s: string)
    requires NoSpace(s)
    ensures Underscored(s) == s
    decreases |s|
  {
    if s != [] {
      UnderscoredNoSpace(s[1..]);
    }
  }

  /** A word, a run of whitespace, then the rest: the run becomes one '_'. */
  lemma {:induction false} UnderscoredGap(w: string, gap: string, rest: string)
    requires NoSpace(w) && gap != [] && AllSpace(gap)
    requires rest == [] || !IsSpace(rest[0])
    ensures Underscored(w + gap + rest) == w + "_" + Underscored(rest)
    decreases |w|
  {
    if w == [] {
      assert w + gap + rest == gap + rest;
      LeadingGap(gap, rest);
    } else {
      var tail := w[1..] + gap + rest;
      Regroup(w, gap + rest);
      Regroup(w, "_" + Underscored(rest));
      assert w[1..] + gap + rest == w[1..] + (gap + rest);
      assert w[1..] + "_" + Underscored(rest) == w[1..] + ("_" + Underscored(rest));
      assert w + gap + rest == w + (gap + rest);
      assert w + "_" + Underscored(rest) == w + ("_" + Underscored(rest));
      UnderscoredCons(w[0], tail);
      UnderscoredGap(w[1..], gap, rest);
    }
  }

  /** A non-empty text followed by another, split after its first character. */
  lemma Regroup(a: string, b: string)
    requires a != []
    ensures a + b == [a[0]] + (a[1..] + b)
  {
    assert a == [a[0]] + a[1..];
  }

  lemma UnderscoredCons(c: char, s: string)
    requires !IsSpace(c)
    ensures Underscored([c] + s) == [c] + Underscored(s)
  {
    var t := [c] + s;
    assert t[0] == c && t[1..] == s;
  }

  lemma LeadingGap(gap: string, rest: string)
    requires gap != [] && AllSpace(gap)
    requires rest == [] || !IsSpace(rest[0])
    ensures Underscored(gap + rest) == "_" + Underscored(rest)
  {
    var s := gap + rest;
    assert s[0] == gap[0] && s[1..] == gap[1..] + rest;
    TrimStartGap(gap[1..], rest);
  }

  lemma {:induction false} TrimStartGap(gap: string, rest: string)
    requires AllSpace(gap)
    requires rest == [] || !IsSpace(rest[0])
    ensures TrimStart(gap + rest) == rest
    decreases |gap|
  {
    if gap == [] {
      assert gap + rest == rest;
    } else {
      var s := gap + rest;
      assert s[0] == gap[0] && s[1..] == gap[1..] + rest;
      TrimStartGap(gap[1..], rest);
    }
  }

  /** Words joined by one separator. */
  function Join(words: seq<string>, sep: string): string
  {
    if words == [] then []
    else if |words| == 1 then words[0]
    else words[0] + sep + Join(words[1..], sep)
  }

  /** Non-empty words without whitespace. */
  predicate Words(words: seq<string>)
  {
    forall k :: 0 <= k < |words| ==> words[k] != [] && NoSpace(words[k])
  }

  /** Words separated by single spaces come out separated by single underscores. */
  lemma {:induction false} UnderscoredWords(words: seq<string>)
    requires Words(words)
    ensures Underscored(Join(words, " ")) == Join(words, "_")
  {
    if words == [] {
    } else if |words| == 1 {
      UnderscoredNoSpace(words[0]);
    } else {
      var rest := Join(words[1..], " ");
      JoinStart(words[1..], " ");
      UnderscoredGap(words[0], " ", rest);
      UnderscoredWords(words[1..]);
    }
  }

  lemma {:induction false} JoinStart(words: seq<string>, sep: string)
    requires words != [] && words[0] != []
    ensures Join(words, sep) != [] && Join(words, sep)[0] == words[0][0]
  {
  }

  /** The separator cannot start inside a text without '-' that it follows. */
  lemma NoSeparatorInside(name: string, rest: string, k: nat)
    requires '-' !in name && k < |name|
    ensures !OccursAt(name + " - " + rest, " - ", k)
  {
    var s := name + " - " + rest;
    if k + 1 < |name| {
      assert s[k + 1] == name[k + 1];
    } else {
      assert s[k + 1] == ' ';
    }
  }

  /** The offering name is what precedes " - " in a quotation label. */
  lemma SplitHeadLabel(name: string, rest: string)
    requires '-' !in name
    ensures SplitHead(name + " - " + rest, " - ") == name
  {
    var s := name + " - " + rest;
    assert s[..|name|] == name;
    assert OccursAt(s, " - ", |name|) by {
      assert s[|name|..|name| + 3] == " - ";
    }
    forall k: nat | k < |name| ensures !OccursAt(s, " - ", k) {
      NoSeparatorInside(name, rest, k);
    }
  }

  /** One space between a word and the rest becomes one '_'. */
  lemma SpaceJoin(a: string, b: string)
    requires NoSpace(a) && b != [] && !IsSpace(b[0])
    ensures Underscored(a + " " + b) == a + "_" + Underscored(b)
  {
    UnderscoredGap(a, " ", b);
  }

  /** Two words separated by a single space. */
  lemma TwoWords(w0: string, w1: string)
    requires NoSpace(w0) && NoSpace(w1) && w1 != []
    ensures Underscored(w0 + " " + w1) == w0 + "_" + w1
  {
    UnderscoredNoSpace(w1);
    SpaceJoin(w0, w1);
  }

  lemma CybersecurityWords()
    ensures NoSpace("Formation") && NoSpace("Cybersécurité")
  {
  }

  lemma CybersecuritySplit(name: string)
    requires name == "Formation Cybersécurité"
    ensures name == "Formation" + " " + "Cybersécurité"
  {
  }

  lemma CybersecurityJoined(token: string)
    requires token == "Formation" + "_" + "Cybersécurité"
    ensures token == "Formation_Cybersécurité"
  {
  }

  lemma CybersecurityToken(name: string)
    requires name == "Formation Cybersécurité"
    ensures Underscored(name) == "Formation_Cybersécurité"
  {
    CybersecurityWords();
    CybersecuritySplit(name);
    TwoWords("Formation", "Cybersécurité");
    CybersecurityJoined(Underscored(name));
  }

  /** Five words separated by single spaces. */
  lemma FiveWords(w0: string, w1: string, w2: string, w3: string, w4: string)
    requires NoSpace(w0) && NoSpace(w1) && NoSpace(w2) && NoSpace(w3) && NoSpace(w4)
    requires w1 != [] && w2 != [] && w3 != [] && w4 != []
    ensures Underscored(w0 + " " + (w1 + " " + (w2 + " " + (w3 + " " + w4))))
      == w0 + "_" + (w1 + "_" + (w2 + "_" + (w3 + "_" + w4)))
  {
    UnderscoredNoSpace(w4);
    var r3 := w3 + " " + w4;
    SpaceJoin(w3, w4);
    var r2 := w2 + " " + r3;
    assert r3[0] == w3[0];
    SpaceJoin(w2, r3);
    var r1 := w1 + " " + r2;
    assert r2[0] == w2[0];
    SpaceJoin(w1, r2);
    assert r1[0] == w1[0];
    SpaceJoin(w0, r1);
  }

  lemma CollaborativeToolsWords()
    ensures NoSpace("Formation") && NoSpace("aux") && NoSpace("Outils")
    ensures NoSpace("Collaboratifs") && NoSpace("M365")
  {
  }

  lemma CollaborativeToolsSplit(name: string)
    requires name == "Formation aux Outils Collaboratifs M365"
    ensures name == "Formation" + " " + ("aux" + " " + ("Outils" + " " + ("Collaboratifs" + " " + "M365")))
  {
  }

  lemma CollaborativeToolsJoined(token: string)
    requires token == "Formation" + "_" + ("aux" + "_" + ("Outils" + "_" + ("Collaboratifs" + "_" + "M365")))
    ensures token == "Formation_aux_Outils_Collaboratifs_M365"
  {
  }

  lemma CollaborativeToolsToken(name: string)
    requires name == "Formation aux Outils Collaboratifs M365"
    ensures Underscored(name) == "Formation_aux_Outils_Collaboratifs_M365"
  {
    CollaborativeToolsWords();
    CollaborativeToolsSplit(name);
    FiveWords("Formation", "aux", "Outils", "Collaboratifs", "M365");
    CollaborativeToolsJoined(Underscored(name));
  }

  lemma AiWords()
    ensures NoSpace("Formation") && NoSpace("IA")
  {
  }

  lemma AiSplit(name: string)
    requires name == "Formation IA"
    ensures name == "Formation" + " " + "IA"
  {
  }

  lemma AiJoined(token: string)
    requires token == "Formation" + "_" + "IA"
    ensures token == "Formation_IA"
  {
  }

  lemma AiToken(name: string)
    requires name == "Formation IA"
    ensures Underscored(name) == "Formation_IA"
  {
    AiWords();
    AiSplit(name);
    TwoWords("Formation", "IA");
    AiJoined(Underscored(name));
  }

  /**
   * The file name of a catalog offering: its name with each space turned
   * into '_', e.g. "Formation IA" gives "Formation_IA".
   */
  lemma CatalogToken(f: FormationId)
    ensures Underscored(SplitHead(FormationLabel(f), " - ")) ==
      match f
      case Cyber2h | CyberHalf => "Formation_Cybersécurité"
      case M365 => "Formation_aux_Outils_Collaboratifs_M365"
      case AiHalf | AiFull => "Formation_IA"
  {
    SplitHeadLabel(FormationName(f), FormationDuration(f));
    match f
    case Cyber2h | CyberHalf => CybersecurityToken(FormationName(f));
    case M365 => CollaborativeToolsToken(FormationName(f));
    case AiHalf | AiFull => AiToken(FormationName(f));
  }

  // The export gate and the exported file.

  /** A file ready for download: its name and its content. */
  datatype ExportFile = ExportFile(fileName: string, doc: Document)

  /** What handleExport passes to generateDoc: no tax and no tax-inclusive total. */
  function ExportDataOf(clientName: string, q: Quote): ExportData
  {
    ExportData(clientName, q.formation, q.mode, q.sessions, q.travelZone, q.travelCost, q.tjm, q.totalHT)
  }

  /** "Générer le devis" is enabled: a quotation exists and the rate is not below the floor. */
  predicate GenerateEnabled(total: Option<Quote>, tjm: real)
  {
    !(total.None? || tjm < MinTjm)
  }

  /** "Télécharger le document" is enabled: the client name is not empty. */
  predicate DownloadEnabled(clientName: string)
  {
    clientName != ""
  }

  /** handleExport: nothing without a quotation or a client name. */
  function HandleExport(total: Option<Quote>, clientName: string): (r: Option<ExportFile>)
    ensures r.Some? <==> total.Some? && clientName != ""
    ensures r.Some? ==> r.value.doc == GenerateDoc(ExportDataOf(clientName, total.value))
    ensures r.Some? ==> r.value.fileName == FileName(clientName, total.value.formation)
  {
    if total.None? || clientName == "" then None
    else Some(ExportFile(FileName(clientName, total.value.formation), GenerateDoc(ExportDataOf(clientName, total.value))))
  }

  /**
   * The whole export path from a selection: the generate button, then the
   * download button, then handleExport on the current quotation.
   */
  function ExportQuote(sel: Selection, clientName: string): (r: Option<ExportFile>)
    ensures r.Some? <==> !Incomplete(sel) && sel.tjm >= MinTjm && clientName != ""
    ensures r.Some? ==> r == HandleExport(Calculate(sel), clientName)
  {
    var total := Calculate(sel);
    if GenerateEnabled(total, sel.tjm) && DownloadEnabled(clientName) then
      HandleExport(total, clientName)
    else
      None
  }

  /** A rate below the floor blocks the export but not the pricing. */
  lemma BelowFloorStillPriced(sel: Selection, clientName: string)
    requires !Incomplete(sel) && sel.tjm < MinTjm
    ensures Calculate(sel).Some?
    ensures ExportQuote(sel, clientName).None?
  {
  }

  /**
   * The exported document shows the quotation's own figures, the travel
   * lines exactly for an on-site quotation, and no tax amount.
   */
  lemma ExportedDocument(sel: Selection, clientName: string)
    requires ExportQuote(sel, clientName).Some?
    ensures var doc, q := ExportQuote(sel, clientName).value.doc, Calculate(sel).value;
      && Amounts(doc) == (if sel.mode == Some(Presentiel) then [q.travelCost] else []) + [q.tjm, q.totalHT]
      && (HasField(doc, "Zone de déplacement") <==> sel.mode == Some(Presentiel))
      && (LyonCondition in Bullets(doc) <==> sel.mode == Some(Presentiel))
      && Fields(doc[2].lines) ==
        [("Formation", Text(q.formation)), ("Mode", Text(q.mode)), ("Nombre de sessions", Count(q.sessions))]
        + (if sel.mode == Some(Presentiel) then
             [("Zone de déplacement", Text(q.travelZone)), ("Frais de déplacement", Euros(q.travelCost))]
           else [])
        + [("TJM appliqué", Euros(q.tjm))]
  {
    var q := Calculate(sel).value;
    var data := ExportDataOf(clientName, q);
    assert ExportQuote(sel, clientName).value.doc == GenerateDoc(data);
    assert q.mode == ModeLabel(sel.mode.value);
    assert (data.mode == OnSiteLabel) == (sel.mode == Some(Presentiel));
    NoRecomputation(data);
    TravelLinesIff(data);
    ConditionsList(data);
    DetailsOrder(data);
  }

  /**
   * The exported file is named after the client and the offering:
   * "Devis_<client>_<offering name with '_' for spaces>.docx".
   */
  lemma ExportedFileName(sel: Selection, clientName: string)
    requires ExportQuote(sel, clientName).Some?
    ensures var f := sel.formation.value;
      ExportQuote(sel, clientName).value.fileName ==
        "Devis_" + clientName + "_" + Underscored(FormationName(f)) + ".docx"
  {
    var f := sel.formation.value;
    var quoted := Calculate(sel).value.formation;
    assert ExportQuote(sel, clientName).value.fileName == FileName(clientName, quoted);
    assert quoted == FormationName(f) + " - " + FormationDuration(f);
    SplitHeadLabel(FormationName(f), FormationDuration(f));
    assert SplitHead(quoted, " - ") == FormationName(f);
  }

  lemma AiFileJoined(name: string)
    requires name == "Devis_" + "Acme" + "_" + "Formation_IA" + ".docx"
    ensures name == "Devis_Acme_Formation_IA.docx"
  {
  }

  /** For example, "Formation IA" on behalf of "Acme" is saved as "Devis_Acme_Formation_IA.docx". */
  lemma AiFileNameExample(tjm: real)
    requires tjm >= MinTjm
    ensures ExportQuote(Selection(Some(AiHalf), Some(Distanciel), Some(1), None, tjm), "Acme").value.fileName
      == "Devis_Acme_Formation_IA.docx"
  {
    var sel := Selection(Some(AiHalf), Some(Distanciel), Some(1), None, tjm);
    var name := ExportQuote(sel, "Acme").value.fileName;
    ExportedFileName(sel, "Acme");
    AiToken(FormationName(AiHalf));
    AiFileJoined(name);
  }
}
