/** One book's metadata: file facts, title, encoding, selection mark and the
    append-only lists of genres, authors and sequences (series). */
module FileRecords {
  import opened Text
  import opened Persons

  /** A QPair<QString, int>: a genre with its match percentage, or a
      sequence with the book's number in it. */
  datatype Pair = Pair(first: string, second: Int32)

  /** Match given to a genre added without one: a complete match. */
  const FullGenreMatch: Int32 := 100
  /** Number given to a sequence added without one: an unnumbered book. */
  const Unnumbered: Int32 := 0

  /** The value of a FileRecord, as the table keeps a copy of it. */
  datatype RecordData = RecordData(
    size: Int64,
    fileName: string,
    archived: bool,
    bookTitle: string,
    genres: seq<Pair>,
    encoding: string,
    authors: seq<PersonData>,
    sequences: seq<Pair>,
    selected: bool)
  {
    /** Each author as "Last First Middle", in the order added. */
    function AuthorList(): (names: seq<string>)
      ensures |names| == |authors|
      ensures forall i :: 0 <= i < |authors| ==> names[i] == authors[i].FullNameLFM()
    {
      MapSeq((p: PersonData) => p.FullNameLFM(), authors)
    }
  }

  /** The value of a freshly constructed record with the given size, which
      the constructor leaves unset. */
  function FreshRecord(size: Int64): (r: RecordData)
    ensures !r.archived && !r.selected
    ensures r.genres == [] && r.authors == [] && r.sequences == []
  {
    RecordData(size, "", false, "", [], "", [], [], false)
  }

  class FileRecord {
    var size: Int64
    var fileName: string
    var archived: bool
    var bookTitle: string
    var genres: seq<Pair>
    var encoding: string
    var authors: seq<PersonData>
    var sequences: seq<Pair>
    var selected: bool

    function Data(): RecordData
      reads this
    {
      RecordData(size, fileName, archived, bookTitle, genres, encoding, authors, sequences, selected)
    }

    /** FileRecord(): not archived, not selected, every list empty; the
        size is whatever the memory held. */
    constructor ()
      ensures Data() == FreshRecord(size)
    {
      fileName, archived, bookTitle, encoding := "", false, "", "";
      genres, authors, sequences, selected := [], [], [], false;
    }

    function GetSize(): Int64 reads this { size }
    function GetFileName(): string reads this { fileName }
    function IsArchive(): bool reads this { archived }
    function GetBookTitle(): string reads this { bookTitle }
    function GetEncoding(): string reads this { encoding }
    function IsSelected(): bool reads this { selected }

    /** The genres exactly as added, for the caller to format. */
    function GetGenresList(): seq<Pair> reads this { genres }
    /** The sequences exactly as added, for the caller to format. */
    function GetSequenceList(): seq<Pair> reads this { sequences }

    method SetSize(newSize: Int64)
      modifies this`size
      ensures GetSize() == newSize
      ensures Data() == old(Data()).(size := newSize)
    {
      size := newSize;
    }

    method SetFileName(name: string)
      modifies this`fileName
      ensures GetFileName() == name
      ensures Data() == old(Data()).(fileName := name)
    {
      fileName := name;
    }

    method SetIsArchive(isArchive: bool)
      modifies this`archived
      ensures IsArchive() == isArchive
      ensures Data() == old(Data()).(archived := isArchive)
    {
      archived := isArchive;
    }

    method SetBookTitle(title: string)
      modifies this`bookTitle
      ensures GetBookTitle() == title
      ensures Data() == old(Data()).(bookTitle := title)
    {
      bookTitle := title;
    }

    method SetEncoding(newEncoding: string)
      modifies this`encoding
      ensures GetEncoding() == newEncoding
      ensures Data() == old(Data()).(encoding := newEncoding)
    {
      encoding := newEncoding;
    }

    method SetSelected(isSelected: bool)
      modifies this`selected
      ensures IsSelected() == isSelected
      ensures Data() == old(Data()).(selected := isSelected)
    {
      selected := isSelected;
    }

    /** addGenre(name, match); the match defaults to FullGenreMatch. */
    method AddGenre(name: string, genreMatch: Int32 := FullGenreMatch)
      modifies this`genres
      ensures |GetGenresList()| == |old(GetGenresList())| + 1
      ensures GetGenresList()[..|old(GetGenresList())|] == old(GetGenresList())
      ensures GetGenresList()[|GetGenresList()| - 1] == Pair(name, genreMatch)
      ensures Data() == old(Data()).(genres := old(genres) + [Pair(name, genreMatch)])
    {
      genres := genres + [Pair(name, genreMatch)];
    }

    /** addAuthor(author): stores a copy of the author as it is now. */
    method AddAuthor(author: Person)
      modifies this`authors
      ensures |authors| == |old(authors)| + 1
      ensures authors[..|old(authors)|] == old(authors)
      ensures authors[|authors| - 1] == author.Data()
      ensures Data() == old(Data()).(authors := old(authors) + [author.Data()])
    {
      authors := authors + [author.Data()];
    }

    /** addSequence(name, number); the number defaults to Unnumbered. */
    method AddSequence(name: string, number: Int32 := Unnumbered)
      modifies this`sequences
      ensures |GetSequenceList()| == |old(GetSequenceList())| + 1
      ensures GetSequenceList()[..|old(GetSequenceList())|] == old(GetSequenceList())
      ensures GetSequenceList()[|GetSequenceList()| - 1] == Pair(name, number)
      ensures Data() == old(Data()).(sequences := old(sequences) + [Pair(name, number)])
    {
      sequences := sequences + [Pair(name, number)];
    }

    /** getAuthorList: walks the authors in order and collects each one's
        "Last First Middle" full name. */
    method GetAuthorList() returns (names: seq<string>)
      ensures |names| == |authors|
      ensures forall i :: 0 <= i < |authors| ==> names[i] == authors[i].FullNameLFM()
      ensures names == Data().AuthorList()
    {
      names := [];
      var it := 0;
      while it != |authors|
        invariant 0 <= it <= |authors|
        invariant |names| == it
        invariant forall i :: 0 <= i < it ==> names[i] == authors[i].FullNameLFM()
      {
        names := names + [authors[it].FullNameLFM()];
        it := it + 1;
      }
    }
  }
}
