/** The earlier, reduced metadata record: file size, file name, archive
    flag, book title and a genre list that only grows. */
module FB2Records {
  import opened Text
  import opened FileRecords

  class FB2Record {
    var size: Int64
    var fileName: string
    var archived: bool
    var bookTitle: string
    var genres: seq<Pair>

    /** FB2Record(): not archived, no genres; the size is left unset. */
    constructor ()
      ensures !IsArchive()
      ensures GetFileName() == "" && GetBookTitle() == "" && genres == []
    {
      archived := false;
      fileName, bookTitle, genres := "", "", [];
    }

    function GetSize(): Int64 reads this { size }
    function GetFileName(): string reads this { fileName }
    function IsArchive(): bool reads this { archived }
    function GetBookTitle(): string reads this { bookTitle }

    method SetSize(newSize: Int64)
      modifies this`size
      ensures GetSize() == newSize
    {
      size := newSize;
    }

    method SetFileName(name: string)
      modifies this`fileName
      ensures GetFileName() == name
    {
      fileName := name;
    }

    method SetIsArchive(isArchive: bool)
      modifies this`archived
      ensures IsArchive() == isArchive
    {
      archived := isArchive;
    }

    method SetBookTitle(title: string)
      modifies this`bookTitle
      ensures GetBookTitle() == title
    {
      bookTitle := title;
    }

    method AddGenre(name: string, genreMatch: Int32)
      modifies this`genres
      ensures genres == old(genres) + [Pair(name, genreMatch)]
    {
      genres := genres + [Pair(name, genreMatch)];
    }
  }
}
