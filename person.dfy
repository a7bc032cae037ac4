/** Author description: name parts, nickname, identifier and two
    append-only lists (home pages, e-mail addresses). */
module Persons {
  import opened Text

  /** The value of a Person. A record keeps its authors by value, so
      adding an author stores this copy, not a reference to the object. */
  datatype PersonData = PersonData(
    firstName: string,
    middleName: string,
    lastName: string,
    nickname: string,
    homePages: seq<string>,
    emails: seq<string>,
    id: string)
  {
    /** An author is usable when known by first and last name, or by a
        nickname. */
    predicate IsCorrect() {
      (firstName != [] && lastName != []) || nickname != []
    }

    /** "Last First Middle". Every part is substituted at once, so the
        two blanks are always there, even around an empty part. */
    function FullNameLFM(): (name: string)
      ensures |name| == |firstName| + |middleName| + |lastName| + 2
      ensures name[..|lastName|] == lastName
      ensures name[|lastName|] == ' '
      ensures name[|lastName| + 1..|lastName| + 1 + |firstName|] == firstName
      ensures name[|lastName| + 1 + |firstName|] == ' '
      ensures name[|lastName| + 2 + |firstName|..] == middleName
      ensures middleName == [] ==> name[|name| - 1] == ' '
    {
      lastName + " " + firstName + " " + middleName
    }

    /** "First Middle Last", with the same fixed blanks; an empty middle
        name leaves two blanks in a row after the first name. */
    function FullNameFML(): (name: string)
      ensures |name| == |firstName| + |middleName| + |lastName| + 2
      ensures name[..|firstName|] == firstName
      ensures name[|firstName|] == ' '
      ensures name[|firstName| + 1..|firstName| + 1 + |middleName|] == middleName
      ensures name[|firstName| + 1 + |middleName|] == ' '
      ensures name[|firstName| + 2 + |middleName|..] == lastName
      ensures middleName == [] ==> name[|firstName|..|firstName| + 2] == "  "
    {
      firstName + " " + middleName + " " + lastName
    }

    /** The one-character string holding the first letter of the last
        name; the source indexes position 0 unchecked, so callers must
        supply a last name. */
    function FirstLetterOfLastName(): (r: string)
      requires lastName != []
      ensures |r| == 1 && r <= lastName
    {
      lastName[..1]
    }
  }

  const NoPerson := PersonData("", "", "", "", [], [], "")

  /** Words free of blanks are recovered from each full name in the
      formatter's order, so FML lists the LFM words rotated by one. */
  lemma {:induction false} FullNameWords(p: PersonData)
    requires ' ' !in p.firstName && ' ' !in p.middleName && ' ' !in p.lastName
    ensures Split(p.FullNameLFM(), ' ') == [p.lastName, p.firstName, p.middleName]
    ensures Split(p.FullNameFML(), ' ') == [p.firstName, p.middleName, p.lastName]
  {
    var lfm := [p.lastName, p.firstName, p.middleName];
    var fml := [p.firstName, p.middleName, p.lastName];
    assert Join(lfm, " ") == p.FullNameLFM() by {
      assert lfm[1..][1..] == [p.middleName];
      assert Join(lfm[1..], " ") == p.firstName + " " + p.middleName;
    }
    assert Join(fml, " ") == p.FullNameFML() by {
      assert fml[1..][1..] == [p.lastName];
      assert Join(fml[1..], " ") == p.middleName + " " + p.lastName;
    }
    SplitJoin(lfm, ' ');
    SplitJoin(fml, ' ');
  }

  /** Validity depends on first name, last name and nickname only. */
  lemma IsCorrectIgnoresOtherFields(p: PersonData, middle: string, pages: seq<string>,
                                    mails: seq<string>, id: string)
    ensures p.(middleName := middle, homePages := pages, emails := mails, id := id).IsCorrect()
            == p.IsCorrect()
  {
  }

  /** A person lacking a nickname is correct exactly when both the first
      and the last name are there. */
  lemma IsCorrectWithoutNickname(p: PersonData)
    requires p.nickname == []
    ensures p.IsCorrect() <==> p.firstName != [] && p.lastName != []
  {
  }

  class Person {
    var firstName: string
    var middleName: string
    var lastName: string
    var nickname: string
    var homePages: seq<string>
    var emails: seq<string>
    var id: string

    function Data(): PersonData
      reads this
    {
      PersonData(firstName, middleName, lastName, nickname, homePages, emails, id)
    }

    /** Person(): every field empty. */
    constructor ()
      ensures Data() == NoPerson
    {
      firstName, middleName, lastName, nickname := "", "", "", "";
      homePages, emails, id := [], [], "";
    }

    /** Person(firstName, lastName): only the two names set. */
    constructor FromNames(first: string, last: string)
      ensures Data() == NoPerson.(firstName := first, lastName := last)
      ensures Data().IsCorrect() <==> first != [] && last != []
    {
      firstName, middleName, lastName, nickname := first, "", last, "";
      homePages, emails, id := [], [], "";
    }

    /** Person(nickName): only the nickname set; a non-empty one alone
        makes the person correct. */
    constructor FromNickname(nick: string)
      ensures Data() == NoPerson.(nickname := nick)
      ensures Data().IsCorrect() <==> nick != []
    {
      firstName, middleName, lastName, nickname := "", "", "", nick;
      homePages, emails, id := [], [], "";
    }

    function GetFirstName(): string reads this { firstName }
    function GetMiddleName(): string reads this { middleName }
    function GetLastName(): string reads this { lastName }
    function GetNickname(): string reads this { nickname }
    function GetId(): string reads this { id }

    method SetFirstName(name: string)
      modifies this`firstName
      ensures GetFirstName() == name
      ensures Data() == old(Data()).(firstName := name)
    {
      firstName := name;
    }

    method SetMiddleName(name: string)
      modifies this`middleName
      ensures GetMiddleName() == name
      ensures Data() == old(Data()).(middleName := name)
      ensures Data().IsCorrect() == old(Data().IsCorrect())
    {
      middleName := name;
    }

    method SetLastName(name: string)
      modifies this`lastName
      ensures GetLastName() == name
      ensures Data() == old(Data()).(lastName := name)
    {
      lastName := name;
    }

    method SetNickname(name: string)
      modifies this`nickname
      ensures GetNickname() == name
      ensures Data() == old(Data()).(nickname := name)
      ensures name != [] ==> Data().IsCorrect()
    {
      nickname := name;
    }

    method SetId(newId: string)
      modifies this`id
      ensures GetId() == newId
      ensures Data() == old(Data()).(id := newId)
      ensures Data().IsCorrect() == old(Data().IsCorrect())
    {
      id := newId;
    }

    /** The number of home pages added so far. */
    function GetHomePageCount(): (n: nat)
      reads this
      ensures n == |GetHomePageAll()|
    {
      |homePages|
    }

    /** The number-th home page added, counting from 0; QVector::at
        demands an index in range. */
    function GetHomePageByNumber(number: int): (page: string)
      reads this
      requires 0 <= number < GetHomePageCount()
      ensures page == GetHomePageAll()[number]
    {
      homePages[number]
    }

    /** All home pages in the order they were added. */
    function GetHomePageAll(): seq<string>
      reads this
    {
      homePages
    }

    method AddHomePage(page: string)
      modifies this`homePages
      ensures GetHomePageCount() == old(GetHomePageCount()) + 1
      ensures GetHomePageByNumber(GetHomePageCount() - 1) == page
      ensures forall i :: 0 <= i < old(GetHomePageCount()) ==>
                GetHomePageByNumber(i) == old(GetHomePageByNumber(i))
      ensures Data() == old(Data()).(homePages := old(homePages) + [page])
    {
      homePages := homePages + [page];
    }

    function GetEmailCount(): (n: nat)
      reads this
      ensures n == |GetEmailAll()|
    {
      |emails|
    }

    function GetEmailByNumber(number: int): (mail: string)
      reads this
      requires 0 <= number < GetEmailCount()
      ensures mail == GetEmailAll()[number]
    {
      emails[number]
    }

    function GetEmailAll(): seq<string>
      reads this
    {
      emails
    }

    method AddEmail(mail: string)
      modifies this`emails
      ensures GetEmailCount() == old(GetEmailCount()) + 1
      ensures GetEmailByNumber(GetEmailCount() - 1) == mail
      ensures forall i :: 0 <= i < old(GetEmailCount()) ==>
                GetEmailByNumber(i) == old(GetEmailByNumber(i))
      ensures Data() == old(Data()).(emails := old(emails) + [mail])
    {
      emails := emails + [mail];
    }
  }
}
