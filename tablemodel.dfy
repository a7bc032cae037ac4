/** The table model behind the book list: one row per record received,
    eight columns, and the rules that turn a record into cell texts, header
    names, item flags and check states. */
module Table {
  import opened Text
  import opened FileRecords

  /** The column enumeration; ColCounterField marks its end. */
  const ColCheckColumn := 0
  const ColBookTitle := 1
  const ColBookAuthor := 2
  const ColSeries := 3
  const ColGenres := 4
  const ColEncoding := 5
  const ColIsArchive := 6
  const ColFileSize := 7
  const ColCounterField := 8

  /** A model index: invalid, or a cell (row, column) of the model. */
  datatype ModelIndex = Invalid | Index(row: nat, column: nat)
  {
    /** QModelIndex::column(): -1 for an invalid index. */
    function Column(): int {
      if Invalid? then -1 else column
    }
  }

  /** The roles the model tells apart; every other role is OtherRole. */
  datatype Role = DisplayRole | CheckStateRole | OtherRole

  datatype Orientation = Horizontal | Vertical

  datatype ItemFlag = ItemIsUserCheckable | ItemIsEnabled

  datatype CheckState = Unchecked | PartiallyChecked | Checked
  {
    /** The integer Qt gives each state. */
    function Value(): int {
      match this
      case Unchecked => 0
      case PartiallyChecked => 1
      case Checked => 2
    }
  }

  /** A QVariant as the model produces one: nothing, text, or a number. */
  datatype Variant = NoValue | TextValue(text: string) | IntValue(number: int)

  /** One genre line of the genre cell: "name (match%)". */
  function GenreLine(genre: Pair): string {
    genre.first + " (" + IntToString(genre.second) + "%)"
  }

  /** One sequence line of the series cell: "name - number". */
  function SeriesLine(sequence: Pair): string {
    sequence.first + " - " + IntToString(sequence.second)
  }

  /** The genre cell: one line per genre, in order. */
  function GenresCell(genres: seq<Pair>): string {
    Join(MapSeq(GenreLine, genres), "\n")
  }

  /** The series cell: one line per sequence, in order. */
  function SeriesCell(sequences: seq<Pair>): string {
    Join(MapSeq(SeriesLine, sequences), "\n")
  }

  /** The author cell: one full name per line, in order. */
  function AuthorsCell(record: RecordData): string {
    Join(record.AuthorList(), "\n")
  }

  /** The archive cell. */
  function ArchiveCell(archived: bool): (cell: string)
    ensures cell == "yes" <==> archived
    ensures cell == "no" <==> !archived
  {
    if archived then "yes" else "no"
  }

  /** The check column is user-checkable; every item is enabled. */
  function Flags(index: ModelIndex): (flags: set<ItemFlag>)
    ensures ItemIsEnabled in flags
    ensures ItemIsUserCheckable in flags <==> index.Column() == ColCheckColumn
    ensures flags <= {ItemIsUserCheckable, ItemIsEnabled}
  {
    (if index.Column() == ColCheckColumn then {ItemIsUserCheckable} else {}) + {ItemIsEnabled}
  }

  /** The fixed number of columns. */
  function ColumnCount(): (n: int)
    ensures n == ColCounterField
    ensures n == ColFileSize + 1
  {
    ColCounterField
  }

  /** The check state of a row; no selection is tracked, so it is never
      checked. */
  function GetState(index: ModelIndex): CheckState {
    var b := false;
    if b then Checked else Unchecked
  }

  /** The name of a column, shown in the horizontal header. */
  function ColumnName(section: int): string
    requires ColBookTitle <= section <= ColFileSize
  {
    if section == ColBookTitle then "Book title"
    else if section == ColBookAuthor then "Book author"
    else if section == ColSeries then "Series"
    else if section == ColGenres then "Genres"
    else if section == ColEncoding then "Encoding"
    else if section == ColIsArchive then "Archived"
    else "File size"
  }

  /** Header texts exist only for display, across the top, over the seven
      data columns; the check column has none. */
  function HeaderData(section: int, orientation: Orientation, role: Role): (v: Variant)
    ensures v != NoValue <==>
              role == DisplayRole && orientation == Horizontal && ColBookTitle <= section <= ColFileSize
    ensures v != NoValue ==> v == TextValue(ColumnName(section))
  {
    if role == DisplayRole && orientation == Horizontal && ColBookTitle <= section <= ColFileSize
    then TextValue(ColumnName(section))
    else NoValue
  }

  /** Editing is accepted for the check-state role on a valid index, and
      whatever the value asks (checked or not) nothing is stored. */
  function SetData(index: ModelIndex, value: Variant, role: Role): (accepted: bool)
    ensures accepted <==> index.Index? && role == CheckStateRole
  {
    if index.Invalid? then false
    else if role == CheckStateRole then
      if value == IntValue(Checked.Value()) then true else true
    else false
  }

  /** The message reported for a record added to the table. */
  function AddedMessage(fileName: string): string {
    "File \"" + fileName + "\" added"
  }

  class TableModel {
    /** The records shown, one per row, as copies of what was appended. */
    var records: seq<RecordData>

    constructor ()
      ensures records == []
    {
      records := [];
    }

    /** rowCount: one row per record held; each row below it reads its
        own stored record. */
    function RowCount(): (n: nat)
      reads this
      ensures n == |records|
      ensures forall row :: 0 <= row < n ==> RecordAt(row) == records[row]
    {
      |records|
    }

    /** QVector::value(row): the record at that row, or a default-made
        record (size 0) when the row is out of range. */
    function RecordAt(row: int): (r: RecordData)
      reads this
      ensures 0 <= row < |records| ==> r == records[row]
      ensures !(0 <= row < |records|) ==> r == FreshRecord(0)
    {
      if 0 <= row < |records| then records[row] else FreshRecord(0)
    }

    /** The cell contents for a role. Display shows the seven data columns,
        check-state shows the check column only, every other role nothing. */
    function Data(index: ModelIndex, role: Role): (v: Variant)
      reads this
      ensures v != NoValue <==>
                index.Index? &&
                ((role == DisplayRole && ColBookTitle <= index.column <= ColFileSize) ||
                 (role == CheckStateRole && index.column == ColCheckColumn))
      ensures index.Index? && role == CheckStateRole && index.column == ColCheckColumn ==>
                v == IntValue(Unchecked.Value())
      ensures index.Index? && role == DisplayRole ==>
                var record := RecordAt(index.row);
                (index.column == ColBookTitle ==> v == TextValue(record.bookTitle)) &&
                (index.column == ColBookAuthor ==> v == TextValue(AuthorsCell(record))) &&
                (index.column == ColSeries ==> v == TextValue(SeriesCell(record.sequences))) &&
                (index.column == ColGenres ==> v == TextValue(GenresCell(record.genres))) &&
                (index.column == ColEncoding ==> v == TextValue(record.encoding)) &&
                (index.column == ColIsArchive ==> v == TextValue(ArchiveCell(record.archived))) &&
                (index.column == ColFileSize ==> v == IntValue(record.size))
    {
      if index.Invalid? then NoValue
      else
        match role
        case DisplayRole =>
          var record := RecordAt(index.row);
          if index.column == ColBookTitle then TextValue(record.bookTitle)
          else if index.column == ColBookAuthor then TextValue(AuthorsCell(record))
          else if index.column == ColSeries then TextValue(SeriesCell(record.sequences))
          else if index.column == ColGenres then TextValue(GenresCell(record.genres))
          else if index.column == ColEncoding then TextValue(record.encoding)
          else if index.column == ColIsArchive then TextValue(ArchiveCell(record.archived))
          else if index.column == ColFileSize then IntValue(record.size)
          else NoValue
        case CheckStateRole =>
          if index.column != ColCheckColumn then NoValue
          else IntValue(GetState(index).Value())
        case OtherRole => NoValue
    }

    /** onAppendRecord: the record is copied in as the last row; the
        message names its file. */
    method OnAppendRecord(record: FileRecord) returns (message: string)
      modifies this
      ensures RowCount() == old(RowCount()) + 1
      ensures records[..old(RowCount())] == old(records)
      ensures records == old(records) + [record.Data()]
      ensures RecordAt(old(RowCount())) == record.Data()
      ensures forall row :: 0 <= row < old(RowCount()) ==> RecordAt(row) == old(RecordAt(row))
      ensures message == AddedMessage(record.fileName)
    {
      records := records + [record.Data()];
      message := AddedMessage(record.fileName);
    }

    /** getFormattedGenresList: collects one line per genre of the row's
        record, then joins them with line breaks. */
    method GetFormattedGenresList(row: int) returns (cell: string)
      ensures cell == GenresCell(RecordAt(row).genres)
    {
      var res: seq<string> := [];
      var tmp := RecordAt(row).genres;
      var it := 0;
      while it != |tmp|
        invariant 0 <= it <= |tmp|
        invariant |res| == it
        invariant forall i :: 0 <= i < it ==> res[i] == GenreLine(tmp[i])
      {
        res := res + [GenreLine(tmp[it])];
        it := it + 1;
      }
      assert res == MapSeq(GenreLine, tmp);
      cell := Join(res, "\n");
    }

    /** getFormattedSeriesList: collects one line per sequence of the row's
        record, then joins them with line breaks. */
    method GetFormattedSeriesList(row: int) returns (cell: string)
      ensures cell == SeriesCell(RecordAt(row).sequences)
    {
      var res: seq<string> := [];
      var tmp := RecordAt(row).sequences;
      var it := 0;
      while it != |tmp|
        invariant 0 <= it <= |tmp|
        invariant |res| == it
        invariant forall i :: 0 <= i < it ==> res[i] == SeriesLine(tmp[i])
      {
        res := res + [SeriesLine(tmp[it])];
        it := it + 1;
      }
      assert res == MapSeq(SeriesLine, tmp);
      cell := Join(res, "\n");
    }
  }

  /** A series line starts with the name, then " - ", then the number's
      decimal text, from which the number is read back. */
  lemma {:induction false} SeriesLineParts(sequence: Pair)
    ensures var line := SeriesLine(sequence); var n := |sequence.first|;
      |line| > n + 3 &&
      line[..n] == sequence.first && line[n..n + 3] == " - " &&
      ParseInt(line[n + 3..]) == sequence.second
  {
    var line := SeriesLine(sequence);
    var n := |sequence.first|;
    assert line[n + 3..] == IntToString(sequence.second);
    IntToStringRoundTrip(sequence.second);
  }

  /** A genre line starts with the name, then " (", then the match's
      decimal text, then "%)"; the match is read back from it. */
  lemma {:induction false} GenreLineParts(genre: Pair)
    ensures var line := GenreLine(genre); var n := |genre.first|;
      |line| > n + 4 &&
      line[..n] == genre.first && line[n..n + 2] == " (" &&
      line[|line| - 2..] == "%)" &&
      ParseInt(line[n + 2..|line| - 2]) == genre.second
  {
    var line := GenreLine(genre);
    var n := |genre.first|;
    assert line[n + 2..|line| - 2] == IntToString(genre.second);
    IntToStringRoundTrip(genre.second);
  }

  /** No line break enters a line apart from those in the name. */
  lemma LinesFreeOfBreaks(items: seq<Pair>)
    requires forall i :: 0 <= i < |items| ==> '\n' !in items[i].first
    ensures forall i :: 0 <= i < |items| ==> '\n' !in SeriesLine(items[i]) && '\n' !in GenreLine(items[i])
  {
    forall i | 0 <= i < |items|
      ensures '\n' !in SeriesLine(items[i]) && '\n' !in GenreLine(items[i])
    {
      IntToStringHasNo(items[i].second, '\n');
    }
  }

  /** No sequences give an empty series cell; k sequences whose names hold
      no line break give k lines, read back in order, and k - 1 breaks. */
  lemma {:induction false} SeriesCellLines(sequences: seq<Pair>)
    requires forall i :: 0 <= i < |sequences| ==> '\n' !in sequences[i].first
    ensures sequences == [] ==> SeriesCell(sequences) == ""
    ensures sequences != [] ==>
      Split(SeriesCell(sequences), '\n') == MapSeq(SeriesLine, sequences) &&
      multiset(SeriesCell(sequences))['\n'] == |sequences| - 1
  {
    if sequences != [] {
      var lines := MapSeq(SeriesLine, sequences);
      LinesFreeOfBreaks(sequences);
      SplitJoin(lines, '\n');
      JoinSeparatorCount(lines, '\n');
    }
  }

  /** The same for the genre cell: one line per genre, in order. */
  lemma {:induction false} GenresCellLines(genres: seq<Pair>)
    requires forall i :: 0 <= i < |genres| ==> '\n' !in genres[i].first
    ensures genres == [] ==> GenresCell(genres) == ""
    ensures genres != [] ==>
      Split(GenresCell(genres), '\n') == MapSeq(GenreLine, genres) &&
      multiset(GenresCell(genres))['\n'] == |genres| - 1
  {
    if genres != [] {
      var lines := MapSeq(GenreLine, genres);
      LinesFreeOfBreaks(genres);
      SplitJoin(lines, '\n');
      JoinSeparatorCount(lines, '\n');
    }
  }

  /** The author cell holds exactly the authors' full names, one per line,
      in the order the authors were added. */
  lemma {:induction false} AuthorsCellLines(record: RecordData)
    requires forall i :: 0 <= i < |record.authors| ==> '\n' !in record.authors[i].FullNameLFM()
    ensures record.authors == [] ==> AuthorsCell(record) == ""
    ensures record.authors != [] ==> Split(AuthorsCell(record), '\n') == record.AuthorList()
  {
    if record.authors != [] {
      SplitJoin(record.AuthorList(), '\n');
    }
  }

  /** The column count bounds what the model serves: no column at or past
      it shows anything, and every data column below it has a header. */
  lemma ColumnCountBoundsCells(t: TableModel, row: nat, column: nat)
    ensures column >= ColumnCount() ==> t.Data(Index(row, column), DisplayRole) == NoValue
    ensures column >= ColumnCount() ==> t.Data(Index(row, column), CheckStateRole) == NoValue
    ensures column >= ColumnCount() ==> t.Data(Index(row, column), OtherRole) == NoValue
    ensures ColBookTitle <= column < ColumnCount() <==>
              HeaderData(column, Horizontal, DisplayRole) != NoValue
  {
  }

  /** The seven header names are pairwise distinct, so each header names
      one column. */
  lemma ColumnNamesDistinct(a: int, b: int)
    requires ColBookTitle <= a <= ColFileSize && ColBookTitle <= b <= ColFileSize
    requires a != b
    ensures ColumnName(a) != ColumnName(b)
  {
  }
}
