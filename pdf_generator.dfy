/** The quote document that `generatePDF` builds, as the log of drawing
    commands it issues against a jsPDF document, in order. Layout and
    rendering belong to the library and are not modelled; how far down the
    page the table ends is an input. */
module PdfGenerator {
  import opened Types
  import PdfFilename
  import opened Sequences

  datatype Align = Left | Center | Right

  /** One drawing call. A text carries the font size in force when it was
      written; coordinates are in the library's page units. */
  datatype Command =
    | Image(data: string, format: string, x: real, y: real, width: real, height: real)
    | Text(text: string, x: real, y: real, align: Align, fontSize: nat)
    | Table(startY: real, head: seq<seq<string>>, body: seq<seq<string>>, theme: string,
            headFill: seq<nat>, headTextColor: nat, columnAlign: seq<Align>)
    | Save(filename: string)

  /** A jsPDF document: the current font size, where the last table ended,
      and everything drawn so far. */
  class Doc {
    var fontSize: nat
    var lastTableEnd: Option<real>
    var commands: seq<Command>

    constructor ()
      ensures fontSize == 16 && lastTableEnd == None && commands == []
    {
      fontSize := 16;
      lastTableEnd := None;
      commands := [];
    }

    method SetFontSize(size: nat)
      modifies this
      ensures fontSize == size
      ensures lastTableEnd == old(lastTableEnd) && commands == old(commands)
    {
      fontSize := size;
    }

    method AddText(text: string, x: real, y: real, align: Align)
      modifies this
      ensures commands == old(commands) + [Text(text, x, y, align, old(fontSize))]
      ensures fontSize == old(fontSize) && lastTableEnd == old(lastTableEnd)
    {
      commands := commands + [Text(text, x, y, align, fontSize)];
    }

    method AddImage(data: string, format: string, x: real, y: real, width: real, height: real)
      modifies this
      ensures commands == old(commands) + [Image(data, format, x, y, width, height)]
      ensures fontSize == old(fontSize) && lastTableEnd == old(lastTableEnd)
    {
      commands := commands + [Image(data, format, x, y, width, height)];
    }

    /** Draws a table; `tableEnd` is where the library's layout finished it. */
    method AutoTable(table: Command, tableEnd: real)
      requires table.Table?
      modifies this
      ensures commands == old(commands) + [table]
      ensures lastTableEnd == Some(tableEnd) && fontSize == old(fontSize)
    {
      commands := commands + [table];
      lastTableEnd := Some(tableEnd);
    }

    method SaveAs(filename: string)
      modifies this
      ensures commands == old(commands) + [Save(filename)]
      ensures fontSize == old(fontSize) && lastTableEnd == old(lastTableEnd)
    {
      commands := commands + [Save(filename)];
    }
  }

  // ---------------------------------------------------------------------
  // The document, section by section
  // ---------------------------------------------------------------------

  const Title := "Orçamento Comercial"
  const FooterText := "LM Manutenções - Orçamento Comercial"
  const BankLine := "Deposito banco Nubank: 260 - Agência: 0001 - Conta: 56310862-1"
  const PixLine := "Pix CNPJ: 40080991000184"
  /** A table column: its heading and the key of the row field it shows. */
  datatype Column = Column(header: string, dataKey: string)

  const Columns: seq<Column> :=
    [ Column("Qtd", "quantidade"), Column("Descrição", "descricao"),
      Column("Valor Unit.", "valorUnitario"), Column("Valor Total", "valorTotal") ]

  /** `columns.map(col => col.header)`: the heading of each column, in
      column order. */
  function HeaderRow(columns: seq<Column>): (r: seq<string>)
    ensures |r| == |columns|
    ensures forall i :: 0 <= i < |columns| ==> r[i] == columns[i].header
  {
    if columns == [] then [] else [columns[0].header] + HeaderRow(columns[1..])
  }

  /** The head row as drawn. */
  const Headers: seq<string> := ["Qtd", "Descrição", "Valor Unit.", "Valor Total"]

  /** The head row is the columns' headings, in column order. */
  lemma {:induction false} HeadersFromColumns()
    ensures Headers == HeaderRow(Columns)
  {
    assert HeaderRow(Columns[3..]) == ["Valor Total"] by {
      assert Columns[3..][1..] == [];
    }
    assert HeaderRow(Columns[2..]) == ["Valor Unit.", "Valor Total"] by {
      assert Columns[2..][1..] == Columns[3..];
    }
    assert HeaderRow(Columns[1..]) == ["Descrição", "Valor Unit.", "Valor Total"] by {
      assert Columns[1..][1..] == Columns[2..];
    }
  }
  const TableStartY: real := 127.0
  /** Space left between the end of the table and the total. */
  const TotalGap: real := 10.0

  /** Logo, title, date and the client heading. */
  function Header(logo: string, dataAtual: string): seq<Command>
  {
    [ Image(logo, "PNG", 70.0, 0.0, 80.0, 60.0),
      Text(Title, 105.0, 70.0, Center, 16),
      Text("Data: " + dataAtual, 190.0, 77.0, Right, 10),
      Text("Dados do Cliente", 14.0, 85.0, Left, 12) ]
  }

  function RepresentativeLine(c: Cliente): Command
  {
    Text("Representante: " + c.nomeRepresentante, 14.0, 105.0, Left, 10)
  }

  function CpfLine(c: Cliente): Command
  {
    Text("CPF do Representante: " + c.cpfRepresentante, 14.0, 111.0, Left, 10)
  }

  /** The client lines; the two representative lines only when their field
      is not empty (an empty string is falsy). */
  function ClientLines(c: Cliente): (r: seq<Command>)
    ensures 2 <= |r| <= 4
  {
    [ Text("Empresa: " + c.nomeEmpresa, 14.0, 93.0, Left, 10),
      Text("CNPJ: " + c.cnpj, 14.0, 99.0, Left, 10) ]
    + (if c.nomeRepresentante != "" then [RepresentativeLine(c)] else [])
    + (if c.cpfRepresentante != "" then [CpfLine(c)] else [])
  }

  /** What an item line costs: its quantity times its unit price. */
  function LineTotal(item: Item): real
  {
    item.quantidade * item.valorUnitario
  }

  /** The row object made from an item, field by field under its key:
      the quantity as text, the description, and the unit price and the
      line total through the currency formatter. */
  function RowRecord(item: Item, formatCurrency: real -> string, numberToString: real -> string): map<string, string>
  {
    map[ "quantidade" := numberToString(item.quantidade),
         "descricao" := item.descricao,
         "valorUnitario" := formatCurrency(item.valorUnitario),
         "valorTotal" := formatCurrency(LineTotal(item)) ]
  }

  /** One table body row: the fields of the row object, read out in a fixed
      order of their own. */
  function Row(item: Item, formatCurrency: real -> string, numberToString: real -> string): seq<string>
  {
    var row := RowRecord(item, formatCurrency, numberToString);
    [ row["quantidade"], row["descricao"], row["valorUnitario"], row["valorTotal"] ]
  }

  /** `itens.map(...)`: the rows, in the order of the items. */
  function Rows(itens: seq<Item>, formatCurrency: real -> string, numberToString: real -> string): (r: seq<seq<string>>)
    ensures |r| == |itens|
  {
    if itens == [] then []
    else [Row(itens[0], formatCurrency, numberToString)] + Rows(itens[1..], formatCurrency, numberToString)
  }

  function ItemsTable(itens: seq<Item>, formatCurrency: real -> string, numberToString: real -> string): Command
  {
    Table(TableStartY, [Headers], Rows(itens, formatCurrency, numberToString), "striped",
          [8, 83, 13], 255, [Center, Left, Right, Right])
  }

  /** Total, payment and observations, placed relative to `finalY`. */
  function PostTable(finalY: real, total: real, formatCurrency: real -> string): seq<Command>
  {
    [ Text("Total: " + formatCurrency(total), 190.0, finalY, Right, 12),
      Text("Pagamento:", 14.0, finalY + 15.0, Left, 12),
      Text(BankLine, 14.0, finalY + 23.0, Left, 10),
      Text(PixLine, 14.0, finalY + 30.0, Left, 10),
      Text("Observações:", 14.0, finalY + 45.0, Left, 12),
      Text("Garantia: 90 dias", 14.0, finalY + 53.0, Left, 10),
      Text("Execução: até 3 dias úteis após depósito inicial", 14.0, finalY + 60.0, Left, 10),
      Text("Este orçamento tem validade de 15 dias", 14.0, finalY + 67.0, Left, 10) ]
  }

  /** What is drawn down to the end of the table. */
  function UpperPart(cliente: Cliente, itens: seq<Item>, logo: string, dataAtual: string,
                     formatCurrency: real -> string, numberToString: real -> string): seq<Command>
  {
    Header(logo, dataAtual)
    + ClientLines(cliente)
    + [Text("Itens do Orçamento", 14.0, 123.0, Left, 12)]
    + [ItemsTable(itens, formatCurrency, numberToString)]
  }

  /** What is drawn below the table, then the save. */
  function LowerPart(cliente: Cliente, finalY: real, total: real, formatCurrency: real -> string): seq<Command>
  {
    PostTable(finalY, total, formatCurrency)
    + [Text(FooterText, 105.0, 285.0, Center, 8)]
    + [Save(PdfFilename.Filename(cliente.nomeEmpresa))]
  }

  /** Everything `generatePDF` draws and saves. Without the logo the fetch
      fails before anything is drawn, and nothing is saved. */
  function Document(cliente: Cliente, itens: seq<Item>, total: real, logo: Option<string>,
                    dataAtual: string, tableEnd: real,
                    formatCurrency: real -> string, numberToString: real -> string): (r: seq<Command>)
    ensures r == [] <==> logo.None?
  {
    match logo
    case None => []
    case Some(data) =>
      UpperPart(cliente, itens, data, dataAtual, formatCurrency, numberToString)
      + LowerPart(cliente, tableEnd + TotalGap, total, formatCurrency)
  }

  // ---------------------------------------------------------------------
  // generatePDF
  // ---------------------------------------------------------------------

  /** Lines 50-72: logo, title, date and the client heading. */
  method WriteHeader(doc: Doc, logo: string, dataAtual: string)
    modifies doc
    ensures doc.commands == old(doc.commands) + Header(logo, dataAtual)
    ensures doc.lastTableEnd == old(doc.lastTableEnd) && doc.fontSize == 12
  {
    doc.AddImage(logo, "PNG", 70.0, 0.0, 80.0, 60.0);

    doc.SetFontSize(16);
    doc.AddText(Title, 105.0, 70.0, Center);

    doc.SetFontSize(10);
    doc.AddText("Data: " + dataAtual, 190.0, 77.0, Right);

    doc.SetFontSize(12);
    doc.AddText("Dados do Cliente", 14.0, 85.0, Left);
  }

  /** Lines 74-84: the client lines. */
  method WriteClient(doc: Doc, cliente: Cliente)
    modifies doc
    ensures doc.commands == old(doc.commands) + ClientLines(cliente)
    ensures doc.lastTableEnd == old(doc.lastTableEnd) && doc.fontSize == 10
  {
    doc.SetFontSize(10);
    doc.AddText("Empresa: " + cliente.nomeEmpresa, 14.0, 93.0, Left);
    doc.AddText("CNPJ: " + cliente.cnpj, 14.0, 99.0, Left);
    if cliente.nomeRepresentante != "" {
      doc.AddText("Representante: " + cliente.nomeRepresentante, 14.0, 105.0, Left);
    }
    if cliente.cpfRepresentante != "" {
      doc.AddText("CPF do Representante: " + cliente.cpfRepresentante, 14.0, 111.0, Left);
    }
  }

  /** Lines 87-122: the items heading and the table. */
  method WriteItems(doc: Doc, itens: seq<Item>, tableEnd: real,
                    formatCurrency: real -> string, numberToString: real -> string)
    modifies doc
    ensures doc.commands == old(doc.commands) + [Text("Itens do Orçamento", 14.0, 123.0, Left, 12)]
                                              + [ItemsTable(itens, formatCurrency, numberToString)]
    ensures doc.lastTableEnd == Some(tableEnd) && doc.fontSize == 12
  {
    doc.SetFontSize(12);
    doc.AddText("Itens do Orçamento", 14.0, 123.0, Left);
    doc.AutoTable(ItemsTable(itens, formatCurrency, numberToString), tableEnd);
  }

  /** Lines 125-145: the sections below the table. */
  method WritePostTable(doc: Doc, finalY: real, total: real, formatCurrency: real -> string)
    modifies doc
    ensures doc.commands == old(doc.commands) + PostTable(finalY, total, formatCurrency)
    ensures doc.lastTableEnd == old(doc.lastTableEnd) && doc.fontSize == 10
  {
    doc.SetFontSize(12);
    doc.AddText("Total: " + formatCurrency(total), 190.0, finalY, Right);

    doc.SetFontSize(12);
    doc.AddText("Pagamento:", 14.0, finalY + 15.0, Left);

    doc.SetFontSize(10);
    doc.AddText(BankLine, 14.0, finalY + 23.0, Left);
    doc.AddText(PixLine, 14.0, finalY + 30.0, Left);

    doc.SetFontSize(12);
    doc.AddText("Observações:", 14.0, finalY + 45.0, Left);

    doc.SetFontSize(10);
    doc.AddText("Garantia: 90 dias", 14.0, finalY + 53.0, Left);
    doc.AddText("Execução: até 3 dias úteis após depósito inicial", 14.0, finalY + 60.0, Left);
    doc.AddText("Este orçamento tem validade de 15 dias", 14.0, finalY + 67.0, Left);
  }

  /** Lines 148-156: the footer, then the file is saved. */
  method WriteFooterAndSave(doc: Doc, cliente: Cliente)
    modifies doc
    ensures doc.commands == old(doc.commands) + [Text(FooterText, 105.0, 285.0, Center, 8)]
                                              + [Save(PdfFilename.Filename(cliente.nomeEmpresa))]
    ensures doc.lastTableEnd == old(doc.lastTableEnd) && doc.fontSize == 8
  {
    doc.SetFontSize(8);
    doc.AddText(FooterText, 105.0, 285.0, Center);
    doc.SaveAs(PdfFilename.Filename(cliente.nomeEmpresa));
  }

  method WriteUpper(doc: Doc, cliente: Cliente, itens: seq<Item>, logo: string, dataAtual: string,
                    tableEnd: real, formatCurrency: real -> string, numberToString: real -> string)
    modifies doc
    ensures doc.commands
         == old(doc.commands) + UpperPart(cliente, itens, logo, dataAtual, formatCurrency, numberToString)
    ensures doc.lastTableEnd == Some(tableEnd) && doc.fontSize == 12
  {
    ghost var start := doc.commands;
    WriteHeader(doc, logo, dataAtual);
    WriteClient(doc, cliente);
    WriteItems(doc, itens, tableEnd, formatCurrency, numberToString);
    assert doc.commands == start + Header(logo, dataAtual) + ClientLines(cliente)
                         + [Text("Itens do Orçamento", 14.0, 123.0, Left, 12)]
                         + [ItemsTable(itens, formatCurrency, numberToString)];
  }

  method WriteLower(doc: Doc, cliente: Cliente, finalY: real, total: real, formatCurrency: real -> string)
    modifies doc
    ensures doc.commands == old(doc.commands) + LowerPart(cliente, finalY, total, formatCurrency)
    ensures doc.lastTableEnd == old(doc.lastTableEnd) && doc.fontSize == 8
  {
    ghost var start := doc.commands;
    WritePostTable(doc, finalY, total, formatCurrency);
    WriteFooterAndSave(doc, cliente);
    var p := PostTable(finalY, total, formatCurrency);
    var footer, save := Text(FooterText, 105.0, 285.0, Center, 8), Save(PdfFilename.Filename(cliente.nomeEmpresa));
    assert doc.commands == start + p + [footer] + [save];
    AppendAssoc(start, p, [footer]);
    AppendAssoc(start, p + [footer], [save]);
  }

  /** `generatePDF`. The logo is `None` when fetching it fails; `dataAtual`
      is the formatted current date, `tableEnd` the table's end as laid out
      by the library, and the two formatters are the currency formatter and
      the number-to-text conversion. */
  method GeneratePdf(cliente: Cliente, itens: seq<Item>, total: real, logo: Option<string>,
                     dataAtual: string, tableEnd: real,
                     formatCurrency: real -> string, numberToString: real -> string)
    returns (doc: Doc)
    ensures fresh(doc)
    ensures doc.commands
         == Document(cliente, itens, total, logo, dataAtual, tableEnd, formatCurrency, numberToString)
    ensures logo.None? ==> doc.fontSize == 16 && doc.lastTableEnd == None
    ensures logo.Some? ==> doc.fontSize == 8 && doc.lastTableEnd == Some(tableEnd)
  {
    doc := new Doc();
    if logo.None? {
      return;
    }
    ghost var upper := UpperPart(cliente, itens, logo.value, dataAtual, formatCurrency, numberToString);
    ghost var lower := LowerPart(cliente, tableEnd + TotalGap, total, formatCurrency);
    WriteUpper(doc, cliente, itens, logo.value, dataAtual, tableEnd, formatCurrency, numberToString);
    EmptyPrefix(upper);
    assert doc.commands == upper;
    var finalY := doc.lastTableEnd.value + TotalGap;
    assert finalY == tableEnd + TotalGap;
    WriteLower(doc, cliente, finalY, total, formatCurrency);
  }

  // ---------------------------------------------------------------------
  // Properties of the document
  // ---------------------------------------------------------------------

  /** The company and CNPJ lines always come first; each representative
      line is there exactly when its own field is non-empty. */
  lemma {:induction false} ClientLinesContents(c: Cliente)
    ensures var lines := ClientLines(c);
      |lines| == 2 + (if c.nomeRepresentante != "" then 1 else 0)
                   + (if c.cpfRepresentante != "" then 1 else 0)
      && lines[0] == Text("Empresa: " + c.nomeEmpresa, 14.0, 93.0, Left, 10)
      && lines[1] == Text("CNPJ: " + c.cnpj, 14.0, 99.0, Left, 10)
      && (RepresentativeLine(c) in lines <==> c.nomeRepresentante != "")
      && (CpfLine(c) in lines <==> c.cpfRepresentante != "")
  {
    var lines := ClientLines(c);
    if RepresentativeLine(c) in lines {
      var i :| 0 <= i < |lines| && lines[i] == RepresentativeLine(c);
      assert lines[i].y == 105.0;
    }
    if CpfLine(c) in lines {
      var i :| 0 <= i < |lines| && lines[i] == CpfLine(c);
      assert lines[i].y == 111.0;
    }
  }

  /** The rows follow the items one for one, in order, four cells each. */
  lemma {:induction false} RowsAt(itens: seq<Item>, formatCurrency: real -> string,
                                  numberToString: real -> string, k: nat)
    requires k < |itens|
    ensures var rows := Rows(itens, formatCurrency, numberToString);
      |rows| == |itens| && |rows[k]| == 4
      && rows[k] == Row(itens[k], formatCurrency, numberToString)
  {
    if k > 0 {
      RowsAt(itens[1..], formatCurrency, numberToString, k - 1);
    }
  }

  /** Rows of a concatenation are the rows of each part, in the same order. */
  lemma {:induction false} RowsConcat(a: seq<Item>, b: seq<Item>, formatCurrency: real -> string,
                                      numberToString: real -> string)
    ensures Rows(a + b, formatCurrency, numberToString)
         == Rows(a, formatCurrency, numberToString) + Rows(b, formatCurrency, numberToString)
  {
    if a == [] {
      assert a + b == b;
    } else {
      assert (a + b)[1..] == a[1..] + b;
      RowsConcat(a[1..], b, formatCurrency, numberToString);
    }
  }

  /** The body and the head agree column by column: each row has one cell
      per column, and the cell in column `i` is the row object's field under
      that column's key. */
  lemma {:induction false} RowFollowsColumns(item: Item, formatCurrency: real -> string,
                                             numberToString: real -> string)
    ensures var row, rec := Row(item, formatCurrency, numberToString),
                            RowRecord(item, formatCurrency, numberToString);
      |row| == |Columns| == |Headers|
      && forall i :: 0 <= i < |Columns| ==> Columns[i].dataKey in rec && row[i] == rec[Columns[i].dataKey]
  {
    var row, rec := Row(item, formatCurrency, numberToString), RowRecord(item, formatCurrency, numberToString);
    forall i | 0 <= i < |Columns|
      ensures Columns[i].dataKey in rec && row[i] == rec[Columns[i].dataKey]
    {
      if i == 0 {
        assert Columns[0].dataKey == "quantidade";
      } else if i == 1 {
        assert Columns[1].dataKey == "descricao";
      } else if i == 2 {
        assert Columns[2].dataKey == "valorUnitario";
      } else {
        assert Columns[3].dataKey == "valorTotal";
      }
    }
  }

  /** How far below `finalY` each section after the table is placed. */
  const PostTableOffsets: seq<real> := [0.0, 15.0, 23.0, 30.0, 45.0, 53.0, 60.0, 67.0]

  /** The sections after the table: total, payment heading, bank, Pix,
      observations heading, warranty, execution and validity, at the fixed
      offsets below `finalY`, in that order, each strictly below the
      previous one. */
  lemma {:induction false} PostTableLayout(finalY: real, total: real, formatCurrency: real -> string)
    ensures var p := PostTable(finalY, total, formatCurrency);
      |p| == |PostTableOffsets| == 8
      && (forall i :: 0 <= i < |p| ==> p[i].Text? && p[i].y == finalY + PostTableOffsets[i])
      && (forall i, j :: 0 <= i < j < |p| ==> p[i].y < p[j].y)
      && p[0].text == "Total: " + formatCurrency(total) && p[1].text == "Pagamento:"
      && p[2].text == BankLine && p[3].text == PixLine && p[4].text == "Observações:"
      && p[5].text == "Garantia: 90 dias"
      && p[6].text == "Execução: até 3 dias úteis após depósito inicial"
      && p[7].text == "Este orçamento tem validade de 15 dias"
  {
    var p := PostTable(finalY, total, formatCurrency);
    forall i, j | 0 <= i < j < |p|
      ensures p[i].y < p[j].y
    {
      assert PostTableOffsets[i] < PostTableOffsets[j];
    }
  }

  /** Where the table ends only moves the sections after it: shifting the
      end shifts each line by the same amount and changes nothing else. */
  lemma {:induction false} PostTableShift(finalY: real, delta: real, total: real, formatCurrency: real -> string)
    ensures var p, q := PostTable(finalY, total, formatCurrency), PostTable(finalY + delta, total, formatCurrency);
      |p| == |q| && forall i :: 0 <= i < |p| ==> q[i] == p[i].(y := p[i].y + delta)
  {
  }

  /** All the sections after the table stay above the footer line exactly
      when the table ends above 208: nothing moves them to a new page. */
  lemma {:induction false} PostTableAboveFooter(tableEnd: real, total: real, formatCurrency: real -> string)
    ensures var p := PostTable(tableEnd + TotalGap, total, formatCurrency);
      (forall i :: 0 <= i < |p| ==> tableEnd < p[i].y < 285.0) <==> tableEnd < 208.0
  {
    var p := PostTable(tableEnd + TotalGap, total, formatCurrency);
    PostTableLayout(tableEnd + TotalGap, total, formatCurrency);
    assert p[7].y == tableEnd + 77.0;
  }

  predicate NoSave(s: seq<Command>)
  {
    forall i :: 0 <= i < |s| ==> !s[i].Save?
  }

  lemma {:induction false} NoSaveConcat(a: seq<Command>, b: seq<Command>)
    requires NoSave(a) && NoSave(b)
    ensures NoSave(a + b)
  {
  }

  lemma {:induction false} UpperPartNoSave(cliente: Cliente, itens: seq<Item>, logo: string, dataAtual: string,
                                           formatCurrency: real -> string, numberToString: real -> string)
    ensures NoSave(UpperPart(cliente, itens, logo, dataAtual, formatCurrency, numberToString))
  {
    var h, c := Header(logo, dataAtual), ClientLines(cliente);
    assert NoSave(h);
    assert NoSave(c);
    NoSaveConcat(h, c);
    NoSaveConcat(h + c, [Text("Itens do Orçamento", 14.0, 123.0, Left, 12)]);
    NoSaveConcat(h + c + [Text("Itens do Orçamento", 14.0, 123.0, Left, 12)],
                 [ItemsTable(itens, formatCurrency, numberToString)]);
  }

  lemma {:induction false} PostTableNoSave(finalY: real, total: real, formatCurrency: real -> string)
    ensures NoSave(PostTable(finalY, total, formatCurrency))
  {
  }

  /** Whatever is drawn first, the one save stays last. */
  lemma {:induction false} EndsInSave(u: seq<Command>, l: seq<Command>, filename: string)
    requires NoSave(u)
    requires |l| > 0 && l[|l| - 1] == Save(filename) && NoSave(l[..|l| - 1])
    ensures |u + l| > 0 && (u + l)[|u + l| - 1] == Save(filename)
    ensures NoSave((u + l)[..|u + l| - 1])
  {
    assert (u + l)[..|u + l| - 1] == u + l[..|l| - 1];
    NoSaveConcat(u, l[..|l| - 1]);
  }

  /** Appending a save to commands that do not save. */
  lemma {:induction false} SaveAppended(a: seq<Command>, filename: string)
    requires NoSave(a)
    ensures var l := a + [Save(filename)];
      |l| > 0 && l[|l| - 1] == Save(filename) && NoSave(l[..|l| - 1])
  {
    DropLast(a, Save(filename));
  }

  lemma {:induction false} LowerPartSaved(cliente: Cliente, finalY: real, total: real,
                                          formatCurrency: real -> string)
    ensures var l := LowerPart(cliente, finalY, total, formatCurrency);
      |l| > 0 && l[|l| - 1] == Save(PdfFilename.Filename(cliente.nomeEmpresa))
      && NoSave(l[..|l| - 1])
  {
    var p := PostTable(finalY, total, formatCurrency);
    var footer := Text(FooterText, 105.0, 285.0, Center, 8);
    PostTableNoSave(finalY, total, formatCurrency);
    NoSaveConcat(p, [footer]);
    SaveAppended(p + [footer], PdfFilename.Filename(cliente.nomeEmpresa));
  }

  /** When the logo cannot be fetched nothing is drawn and nothing is saved;
      otherwise the document ends in the one save, under the file name made
      from the company. */
  lemma {:induction false} DocumentSaved(cliente: Cliente, itens: seq<Item>, total: real, logo: Option<string>,
                                         dataAtual: string, tableEnd: real,
                                         formatCurrency: real -> string, numberToString: real -> string)
    ensures var d := Document(cliente, itens, total, logo, dataAtual, tableEnd, formatCurrency, numberToString);
      (logo.None? ==> d == [])
      && (logo.Some? ==> |d| > 0 && d[|d| - 1] == Save(PdfFilename.Filename(cliente.nomeEmpresa))
                         && NoSave(d[..|d| - 1]))
  {
    var d := Document(cliente, itens, total, logo, dataAtual, tableEnd, formatCurrency, numberToString);
    match logo
    case None =>
    case Some(data) =>
      PartsSaved(cliente, itens, total, data, dataAtual, tableEnd, formatCurrency, numberToString);
      assert d == UpperPart(cliente, itens, data, dataAtual, formatCurrency, numberToString)
                  + LowerPart(cliente, tableEnd + TotalGap, total, formatCurrency);
  }

  /** The document drawn with a logo ends in the one save. */
  lemma {:induction false} PartsSaved(cliente: Cliente, itens: seq<Item>, total: real, logo: string,
                                      dataAtual: string, tableEnd: real,
                                      formatCurrency: real -> string, numberToString: real -> string)
    ensures var d := UpperPart(cliente, itens, logo, dataAtual, formatCurrency, numberToString)
                     + LowerPart(cliente, tableEnd + TotalGap, total, formatCurrency);
      |d| > 0 && d[|d| - 1] == Save(PdfFilename.Filename(cliente.nomeEmpresa))
      && NoSave(d[..|d| - 1])
  {
    var u := UpperPart(cliente, itens, logo, dataAtual, formatCurrency, numberToString);
    var l := LowerPart(cliente, tableEnd + TotalGap, total, formatCurrency);
    UpperPartNoSave(cliente, itens, logo, dataAtual, formatCurrency, numberToString);
    LowerPartSaved(cliente, tableEnd + TotalGap, total, formatCurrency);
    EndsInSave(u, l, PdfFilename.Filename(cliente.nomeEmpresa));
  }
}
