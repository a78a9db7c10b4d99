/** The selection mapper of the Tab component: the callback the people picker
    calls with its ordered selection, turning each selected person into one
    row of the results table. */
module Selection {
  import opened Wrappers

  /** An attribute of a directory profile; the picker may leave any of them undefined. */
  type Attr = Option<string>

  /** A person object as the people picker reports it (only the attributes the tab reads). */
  datatype Person = Person(
    id: Attr,
    displayName: Attr,
    mail: Attr,
    userPrincipalName: Attr,
    officeLocation: Attr)

  /** What a table cell displays: a person card bound to a user id (the widget
      itself is external and is kept abstract), or plain text. */
  datatype Content = PersonCard(userId: Attr) | Text(text: Attr)

  datatype Cell = Cell(content: Content, truncateContent: bool, title: Attr)

  /** A table row view-model; its key is its position in the selection. */
  datatype Row = Row(key: nat, truncateContent: bool, items: seq<Cell>)

  /** The location label every row shows, whatever the person's office location. */
  const HardcodedLocation: string := "SHA-ZIZHU-BLD1/1707"

  /** The four column labels of the results table. */
  const TableHeader: seq<string> := ["Name", "Email", "User Principal Name", "Location"]

  /** The row built for `person` at position `index` of the selection. */
  function RowOf(person: Person, index: nat): Row {
    Row(index, true, [
      Cell(PersonCard(person.id), true, person.displayName),
      Cell(Text(person.mail), true, person.mail),
      Cell(Text(person.userPrincipalName), true, person.userPrincipalName),
      Cell(Text(Some(HardcodedLocation)), true, person.officeLocation)
    ])
  }

  /** The cell-by-cell reading of `RowOf(person, i)`: what the table promises of
      the row at position `i` (`RowForUnique` shows it admits only that row). */
  ghost predicate RowFor(r: Row, person: Person, i: nat) {
    && r.key == i
    && r.truncateContent
    && |r.items| == 4
    && (forall c :: 0 <= c < 4 ==> r.items[c].truncateContent)
    && r.items[0].content == PersonCard(person.id) && r.items[0].title == person.displayName
    && r.items[1].content == Text(person.mail) && r.items[1].title == person.mail
    && r.items[2].content == Text(person.userPrincipalName) && r.items[2].title == person.userPrincipalName
    && r.items[3].content == Text(Some(HardcodedLocation)) && r.items[3].title == person.officeLocation
  }

  /** `people.map((person, index) => ...)` with the indices starting at `start`. */
  function MapRowsFrom(people: seq<Person>, start: nat): (rows: seq<Row>)
    ensures |rows| == |people|
    ensures forall i :: 0 <= i < |people| ==> RowFor(rows[i], people[i], start + i)
    decreases |people|
  {
    if people == [] then []
    else [RowOf(people[0], start)] + MapRowsFrom(people[1..], start + 1)
  }

  /** One row per selected person, in selection order, row i keyed by i. */
  function MapRows(people: seq<Person>): (rows: seq<Row>)
    ensures |rows| == |people|
    ensures forall i :: 0 <= i < |people| ==> RowFor(rows[i], people[i], i)
  {
    MapRowsFrom(people, 0)
  }

  /** Reads the person back from a row, when the row has the mapper's shape. */
  function PersonOfRow(r: Row): Option<Person> {
    if |r.items| == 4 && r.items[0].content.PersonCard? then
      Some(Person(r.items[0].content.userId, r.items[0].title, r.items[1].title,
                  r.items[2].title, r.items[3].title))
    else None
  }

  /** Reads the whole selection back from a table, or `None` if some row is not mapper-shaped. */
  function PeopleOfRows(rows: seq<Row>): Option<seq<Person>>
    decreases |rows|
  {
    if rows == [] then Some([])
    else match (PersonOfRow(rows[0]), PeopleOfRows(rows[1..]))
      case (Some(p), Some(ps)) => Some([p] + ps)
      case _ => None
  }

  /** The table loses nothing about the selection: every attribute of every
      selected person, including the office location the fourth cell does not
      display, can be read back from the rows, in order. */
  lemma {:induction false} PeopleOfRowsFrom(people: seq<Person>, start: nat)
    ensures PeopleOfRows(MapRowsFrom(people, start)) == Some(people)
    decreases |people|
  {
    if people != [] {
      var rest := MapRowsFrom(people[1..], start + 1);
      var rows := [RowOf(people[0], start)] + rest;
      assert MapRowsFrom(people, start) == rows;
      assert rows[0] == RowOf(people[0], start) && rows[1..] == rest;
      PeopleOfRowsFrom(people[1..], start + 1);
      assert PersonOfRow(RowOf(people[0], start)) == Some(people[0]);
      assert [people[0]] + people[1..] == people;
    }
  }

  lemma RowsRoundTrip(people: seq<Person>)
    ensures PeopleOfRows(MapRows(people)) == Some(people)
  {
    PeopleOfRowsFrom(people, 0);
  }

  /** Different selections never produce the same table. */
  lemma MapRowsInjective(a: seq<Person>, b: seq<Person>)
    requires MapRows(a) == MapRows(b)
    ensures a == b
  {
    RowsRoundTrip(a);
    RowsRoundTrip(b);
  }

  /** The location the table displays depends on nothing about the person: two
      selections of the same length show the same fourth cell in every row. */
  lemma LocationCellIsConstant(a: seq<Person>, b: seq<Person>, i: nat)
    requires |a| == |b| && i < |a|
    ensures MapRows(a)[i].items[3].content == MapRows(b)[i].items[3].content
            == Text(Some(HardcodedLocation))
  {
  }

  /** Keys are positional: extending the selection at the end leaves the rows
      of the people already selected exactly as they were. */
  lemma {:induction false} MapRowsPrefix(a: seq<Person>, b: seq<Person>)
    ensures MapRows(a + b)[..|a|] == MapRows(a)
  {
    var r, s := MapRows(a + b), MapRows(a);
    forall i | 0 <= i < |a| ensures r[i] == s[i] {
      assert (a + b)[i] == a[i];
      RowForUnique(r[i], s[i], a[i], i);
    }
  }

  /** The shape `RowFor` pins a row down completely. */
  lemma RowForUnique(r: Row, s: Row, person: Person, i: nat)
    requires RowFor(r, person, i) && RowFor(s, person, i)
    ensures r == s
  {
    assert r.items[0] == s.items[0] && r.items[1] == s.items[1];
    assert r.items[2] == s.items[2] && r.items[3] == s.items[3];
    assert r.items == s.items;
  }
}
