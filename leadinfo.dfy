/**
 * The `infoLead` text block of the /api/analizar handler (server.js:42-61):
 * the lead's contact fields, the seller's notes and two numbered lists,
 * each with a fixed Spanish fallback.
 */
module LeadInfo {
  import opened Wrappers
  import opened Text

  /** The lead fields the handler reads; other fields of the object are ignored. */
  datatype Lead = Lead(
    nombre: Option<string>,
    email: Option<string>,
    telefono: Option<string>,
    origen: Option<string>)

  /** A string-valued JavaScript expression is truthy when it is present and not "". */
  predicate Truthy(v: Option<string>) {
    v.Some? && v.value != ""
  }

  /** `v || fallback` for a value that is a string or absent. */
  function OrElse(v: Option<string>, fallback: string): (r: string)
    ensures Truthy(v) ==> r == v.value
    ensures !Truthy(v) ==> r == fallback
  {
    if Truthy(v) then v.value else fallback
  }

  const Unavailable := "N/D"
  const NoNotes := "Sin notas registradas."
  const NoInteractions := "Sin interacciones registradas."
  const NoActivities := "Sin actividades registradas."

  /** How one contact field is shown: its own text, or "N/D" when it is absent or empty. */
  function FieldText(v: Option<string>): (r: string)
    ensures r != ""
    ensures r == Unavailable <==> !Truthy(v) || v.value == Unavailable
    ensures Truthy(v) ==> r == v.value
  {
    OrElse(v, Unavailable)
  }

  /** One list entry, `" " + (idx + 1) + ". " + x`, for the 1-based number k. */
  function ItemLine(k: nat, x: string): string {
    " " + NatToString(k) + ". " + x
  }

  /** `items.map((x, idx) => ...)` numbering from `first`. */
  function ItemLinesFrom(items: seq<string>, first: nat): (lines: seq<string>)
    ensures |lines| == |items|
  {
    seq(|items|, k requires 0 <= k < |items| => ItemLine(first + k, items[k]))
  }

  function ItemLines(items: seq<string>): seq<string> {
    ItemLinesFrom(items, 1)
  }

  /** `(coll || [])`: an absent collection is the empty array. */
  function ItemsOf(coll: Option<seq<string>>): (items: seq<string>)
    ensures coll.Some? ==> items == coll.value
    ensures coll.None? ==> items == []
  {
    if coll.Some? then coll.value else []
  }

  /**
   * `(coll || []).map(...).join("\n") || placeholder`: the numbered list, or
   * the placeholder exactly when there is nothing to number. An entry that
   * is itself "" still yields a line, so `[""]` renders " 1. ".
   */
  function RenderList(coll: Option<seq<string>>, placeholder: string): (r: string)
    ensures ItemsOf(coll) == [] ==> r == placeholder
    ensures ItemsOf(coll) != [] ==> r == Join(ItemLines(ItemsOf(coll)), "\n")
    ensures ItemsOf(coll) != [] ==> r[0] == ' '
  {
    var lines := ItemLines(ItemsOf(coll));
    var joined := Join(lines, "\n");
    if joined != "" then joined else placeholder
  }

  /** The block the prompt embeds: the template literal with its seven holes filled. */
  function InfoLead(lead: Lead, notas: Option<string>,
                    interacciones: Option<seq<string>>, actividades: Option<seq<string>>): string
  {
    InfoTemplate(
      FieldText(lead.nombre), FieldText(lead.email), FieldText(lead.telefono), FieldText(lead.origen),
      OrElse(notas, NoNotes),
      RenderList(interacciones, NoInteractions), RenderList(actividades, NoActivities))
  }

  /** The `infoLead` template literal, line for line. */
  function InfoTemplate(nombre: string, email: string, telefono: string, origen: string,
                        notas: string, interacciones: string, actividades: string): string
  {
    "\n"
    + "LEAD:" + "\n"
    + "- Nombre: " + nombre + "\n"
    + "- Email: " + email + "\n"
    + "- Teléfono: " + telefono + "\n"
    + "- Origen: " + origen + "\n"
    + "\n"
    + "NOTAS DEL VENDEDOR:" + "\n"
    + notas + "\n"
    + "\n"
    + "INTERACCIONES:" + "\n"
    + interacciones + "\n"
    + "\n"
    + "ACTIVIDADES:" + "\n"
    + actividades + "\n"
  }

  /** Renderings worked out: an entry that is "" still gets its line; no entries give the placeholder. */
  lemma RenderListExamples()
    ensures RenderList(Some([""]), NoInteractions) == " 1. "
    ensures RenderList(Some([]), NoActivities) == NoActivities
  {
    assert NatToString(1) == "1";
    assert ItemLine(1, "") == " 1. ";
    assert ItemLines([""]) == [" 1. "];
  }

  /** Two entries are numbered 1 and 2 and separated by one line break. */
  lemma RenderListTwoEntries()
    ensures RenderList(Some(["llamada", "visita"]), NoActivities) == " 1. llamada\n 2. visita"
  {
    assert NatToString(1) == "1" && NatToString(2) == "2";
    assert ItemLine(1, "llamada") == " 1. llamada" && ItemLine(2, "visita") == " 2. visita";
    assert ItemLines(["llamada", "visita"]) == [" 1. llamada", " 2. visita"];
  }

  // Reading a rendered list back. None of this is done by the handler; it
  // is the reference against which RenderList is proved to lose nothing.

  /** The length of the run of decimal digits that starts `s`. */
  function DigitRun(s: string): (n: nat)
    ensures n <= |s| && AllDigits(s[..n])
    ensures n < |s| ==> !IsDigit(s[n])
    decreases |s|
  {
    if s != [] && IsDigit(s[0]) then 1 + DigitRun(s[1..]) else 0
  }

  /** Reads " k. x" back into the number k and the entry x. */
  function ParseItemLine(line: string): Option<(nat, string)> {
    if line == [] || line[0] != ' ' then None
    else
      var n := DigitRun(line[1..]);
      var rest := line[1 + n..];
      if n == 0 || |rest| < 2 || rest[..2] != ". " then None
      else
        assert line[1..1 + n] == line[1..][..n];
        Some((DigitsValue(line[1..1 + n]), rest[2..]))
  }

  /** Reads consecutive item lines numbered `first`, `first + 1`, ... */
  function DecodeItems(lines: seq<string>, first: nat): Option<seq<string>>
    decreases |lines|
  {
    if lines == [] then Some([])
    else match ParseItemLine(lines[0])
      case Some((k, x)) =>
        if k != first then None
        else (match DecodeItems(lines[1..], first + 1)
          case Some(xs) => Some([x] + xs)
          case None => None)
      case None => None
  }

  /** Reads a rendered list section back into its entries. */
  function ReadList(text: string, placeholder: string): Option<seq<string>> {
    if text == placeholder then Some([]) else DecodeItems(Split(text, '\n'), 1)
  }

  lemma {:induction false} DigitRunOfDigits(d: string, t: string)
    requires AllDigits(d)
    requires t != [] && !IsDigit(t[0])
    ensures DigitRun(d + t) == |d|
    decreases |d|
  {
    if d != [] {
      var s := d + t;
      assert s[0] == d[0] && IsDigit(s[0]);
      assert s[1..] == d[1..] + t;
      assert AllDigits(d[1..]) by {
        forall i | 0 <= i < |d| - 1 ensures IsDigit(d[1..][i]) {
          assert d[1..][i] == d[i + 1];
        }
      }
      DigitRunOfDigits(d[1..], t);
    }
  }

  lemma {:induction false} ParseItemLineRoundTrip(k: nat, x: string)
    ensures ParseItemLine(ItemLine(k, x)) == Some((k, x))
  {
    var digits := NatToString(k);
    var line := ItemLine(k, x);
    assert line[1..] == digits + (". " + x);
    DigitRunOfDigits(digits, ". " + x);
    assert line[1..1 + |digits|] == digits;
    assert line[1 + |digits|..] == ". " + x;
    NatToStringValue(k);
  }

  lemma {:induction false} DecodeItemLines(items: seq<string>, first: nat)
    ensures DecodeItems(ItemLinesFrom(items, first), first) == Some(items)
    decreases |items|
  {
    var lines := ItemLinesFrom(items, first);
    if items != [] {
      assert lines[0] == ItemLine(first, items[0]);
      ParseItemLineRoundTrip(first, items[0]);
      assert lines[1..] == ItemLinesFrom(items[1..], first + 1);
      DecodeItemLines(items[1..], first + 1);
      assert [items[0]] + items[1..] == items;
    }
  }

  lemma ItemLinesSingle(items: seq<string>)
    requires forall i :: 0 <= i < |items| ==> '\n' !in items[i]
    ensures forall i :: 0 <= i < |items| ==> '\n' !in ItemLines(items)[i]
  {
    forall i | 0 <= i < |items| ensures '\n' !in ItemLines(items)[i] {
      var digits := NatToString(1 + i);
      assert ItemLines(items)[i] == [' '] + digits + ['.', ' '] + items[i];
      assert !IsDigit('\n');
    }
  }

  /**
   * Nothing is lost or reordered: reading a rendered list gives back exactly
   * its entries (none for an absent or empty list), provided no entry spans
   * several lines and the placeholder cannot be mistaken for an item line.
   */
  lemma {:induction false} RenderListRoundTrip(coll: Option<seq<string>>, placeholder: string)
    requires forall i :: 0 <= i < |ItemsOf(coll)| ==> '\n' !in ItemsOf(coll)[i]
    requires placeholder == [] || placeholder[0] != ' '
    ensures ReadList(RenderList(coll, placeholder), placeholder) == Some(ItemsOf(coll))
  {
    var items := ItemsOf(coll);
    if items != [] {
      var lines := ItemLines(items);
      ItemLinesSingle(items);
      SplitJoin(lines, '\n');
      DecodeItemLines(items, 1);
    }
  }

  // The line structure of the block.

  lemma LineAfter(prefix: string, line: string)
    ensures Split(prefix + "\n" + line, '\n') == Split(prefix, '\n') + Split(line, '\n')
  {
    SplitAround(prefix, line, '\n');
  }

  lemma AppendPair(lines: seq<string>, x: string, y: string)
    ensures lines + [x] + [y] == lines + [x, y]
  {
  }

  /** A labelled field line "- Label: value" after the lines so far. */
  lemma FieldLineAfter(prefix: string, tag: string, value: string)
    ensures Split(prefix + "\n" + tag + value, '\n')
         == Split(prefix, '\n') + Split(tag + value, '\n')
  {
    assert prefix + "\n" + tag + value == prefix + "\n" + (tag + value);
    LineAfter(prefix, tag + value);
  }

  /** A section: an empty line, its title line, then its body. */
  lemma SectionAfter(prefix: string, title: string, body: string)
    requires '\n' !in title
    ensures Split(prefix + "\n" + "\n" + title + "\n" + body, '\n')
         == Split(prefix, '\n') + ["", title] + Split(body, '\n')
  {
    var p1 := prefix + "\n";
    assert p1 == prefix + "\n" + "";
    LineAfter(prefix, "");
    var p2 := p1 + "\n" + title;
    LineAfter(p1, title);
    SplitWithoutSeparator(title, '\n');
    LineAfter(p2, body);
    AppendPair(Split(prefix, '\n'), "", title);
  }

  lemma HeadLines(head: string)
    requires '\n' !in head
    ensures Split("\n" + head, '\n') == ["", head]
  {
    assert "\n" + head == "" + "\n" + head;
    LineAfter("", head);
    SplitWithoutSeparator(head, '\n');
    SplitWithoutSeparator("", '\n');
  }

  /** The opening line pair and four labelled field lines, with the labels left open. */
  lemma FieldBlockLines(head: string, l1: string, v1: string, l2: string, v2: string,
                        l3: string, v3: string, l4: string, v4: string)
    requires '\n' !in head
    ensures Split("\n" + head + "\n" + l1 + v1 + "\n" + l2 + v2 + "\n" + l3 + v3 + "\n" + l4 + v4, '\n')
         == ["", head] + Split(l1 + v1, '\n') + Split(l2 + v2, '\n')
            + Split(l3 + v3, '\n') + Split(l4 + v4, '\n')
  {
    var p1 := "\n" + head;
    HeadLines(head);
    var p2 := p1 + "\n" + l1 + v1;
    FieldLineAfter(p1, l1, v1);
    var p3 := p2 + "\n" + l2 + v2;
    FieldLineAfter(p2, l2, v2);
    var p4 := p3 + "\n" + l3 + v3;
    FieldLineAfter(p3, l3, v3);
    FieldLineAfter(p4, l4, v4);
  }

  /** Three titled sections and the closing line break after a prefix, with the titles left open. */
  lemma SectionsLines(prefix: string, t1: string, b1: string, t2: string, b2: string,
                      t3: string, b3: string)
    requires '\n' !in t1 && '\n' !in t2 && '\n' !in t3
    ensures Split(prefix + "\n" + "\n" + t1 + "\n" + b1 + "\n" + "\n" + t2 + "\n" + b2
                  + "\n" + "\n" + t3 + "\n" + b3 + "\n", '\n')
         == Split(prefix, '\n') + ["", t1] + Split(b1, '\n') + ["", t2] + Split(b2, '\n')
            + ["", t3] + Split(b3, '\n') + [""]
  {
    var s1 := prefix + "\n" + "\n" + t1 + "\n" + b1;
    SectionAfter(prefix, t1, b1);
    var s2 := s1 + "\n" + "\n" + t2 + "\n" + b2;
    SectionAfter(s1, t2, b2);
    var s3 := s2 + "\n" + "\n" + t3 + "\n" + b3;
    SectionAfter(s2, t3, b3);
    assert s3 + "\n" == s3 + "\n" + "";
    LineAfter(s3, "");
    SplitWithoutSeparator("", '\n');
  }

  lemma TitlesAreSingleLines()
    ensures '\n' !in "LEAD:" && '\n' !in "NOTAS DEL VENDEDOR:"
    ensures '\n' !in "INTERACCIONES:" && '\n' !in "ACTIVIDADES:"
  {
  }

  lemma InfoTemplateLines(n: string, e: string, t: string, o: string, no: string, ia: string, ac: string)
    ensures Split(InfoTemplate(n, e, t, o, no, ia, ac), '\n')
         == ["", "LEAD:"]
            + Split("- Nombre: " + n, '\n') + Split("- Email: " + e, '\n')
            + Split("- Teléfono: " + t, '\n') + Split("- Origen: " + o, '\n')
            + ["", "NOTAS DEL VENDEDOR:"] + Split(no, '\n')
            + ["", "INTERACCIONES:"] + Split(ia, '\n')
            + ["", "ACTIVIDADES:"] + Split(ac, '\n')
            + [""]
  {
    TitlesAreSingleLines();
    var fields := "\n" + "LEAD:" + "\n"
                  + "- Nombre: " + n + "\n"
                  + "- Email: " + e + "\n"
                  + "- Teléfono: " + t + "\n"
                  + "- Origen: " + o;
    FieldBlockLines("LEAD:", "- Nombre: ", n, "- Email: ", e, "- Teléfono: ", t, "- Origen: ", o);
    SectionsLines(fields, "NOTAS DEL VENDEDOR:", no, "INTERACCIONES:", ia, "ACTIVIDADES:", ac);
  }

  /**
   * The block read line by line: an empty first line, "LEAD:", the four
   * field lines in order (none dropped, each with its value or "N/D"), then
   * the notes, interactions and activities sections, each after an empty
   * line and its title, and a final empty line.
   */
  lemma InfoLeadLines(lead: Lead, notas: Option<string>,
                      interacciones: Option<seq<string>>, actividades: Option<seq<string>>)
    ensures Split(InfoLead(lead, notas, interacciones, actividades), '\n')
         == ["", "LEAD:"]
            + Split("- Nombre: " + FieldText(lead.nombre), '\n')
            + Split("- Email: " + FieldText(lead.email), '\n')
            + Split("- Teléfono: " + FieldText(lead.telefono), '\n')
            + Split("- Origen: " + FieldText(lead.origen), '\n')
            + ["", "NOTAS DEL VENDEDOR:"] + Split(OrElse(notas, NoNotes), '\n')
            + ["", "INTERACCIONES:"] + Split(RenderList(interacciones, NoInteractions), '\n')
            + ["", "ACTIVIDADES:"] + Split(RenderList(actividades, NoActivities), '\n')
            + [""]
  {
    InfoTemplateLines(
      FieldText(lead.nombre), FieldText(lead.email), FieldText(lead.telefono), FieldText(lead.origen),
      OrElse(notas, NoNotes),
      RenderList(interacciones, NoInteractions), RenderList(actividades, NoActivities));
  }
}
