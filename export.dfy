/** The profile export endpoint: turns a posted profile record into an
    ordered list of named sheets (Profile, optional Preferences, optional
    Favorites, Summary) and a file name, or into a 500 error. The byte
    encoding of the workbook is the spreadsheet library's and is not
    modelled; a sheet is its name and its rows of cells. */
module Export {
  import opened Optional
  import opened Text

  /** The JSON body as the route reads it. The two lists may be absent;
      an absent `totalOrders` makes its `toString()` throw. */
  datatype ProfileRecord = ProfileRecord(
    firstName: string,
    lastName: string,
    email: string,
    phone: string,
    address: string,
    city: string,
    state: string,
    zipCode: string,
    preferences: Option<seq<string>>,
    memberSince: string,
    totalOrders: Option<int>,
    favoriteProducts: Option<seq<string>>)

  /** The clock readings the route takes: the locale date and time written
      into the Summary sheet and the ISO timestamp the file name uses. */
  datatype Clock = Clock(localeDate: string, localeTime: string, isoTimestamp: string)

  datatype Sheet = Sheet(name: string, rows: seq<seq<string>>)

  datatype Response =
    | Spreadsheet(status: int, contentType: string, contentDisposition: string,
                  filename: string, book: seq<Sheet>)
    | JsonError(status: int, error: string)
    | JsonMessage(status: int, message: string, usage: string)

  const XlsxContentType := "application/vnd.openxmlformats-officedocument.spreadsheetml.sheet"
  const ExportFailed := "Failed to export profile data"

  /** `list && list.length > 0`. */
  predicate HasItems(list: Option<seq<string>>) {
    list.Some? && |list.value| > 0
  }

  /** The value cell of the first two-cell row whose label cell is `key`:
      how a reader of a Field/Value sheet finds a field. */
  function Lookup(rows: seq<seq<string>>, key: string): Option<string> {
    if rows == [] then None
    else if |rows[0]| == 2 && rows[0][0] == key then Some(rows[0][1])
    else Lookup(rows[1..], key)
  }

  lemma {:induction false} LookupAt(rows: seq<seq<string>>, i: nat, key: string)
    requires i < |rows| && |rows[i]| == 2 && rows[i][0] == key
    requires forall j :: 0 <= j < i ==> |rows[j]| != 2 || rows[j][0] != key
    ensures Lookup(rows, key) == Some(rows[i][1])
  {
    if i > 0 {
      LookupAt(rows[1..], i - 1, key);
    }
  }

  /** The labels of the Profile sheet, in order. */
  const ProfileLabels := ["First Name", "Last Name", "Email", "Phone", "Address", "City",
                          "State", "Zip Code", "Member Since", "Total Orders"]

  /** The Profile sheet: the Field/Value header, then exactly ten two-cell
      rows labelled First Name through Total Orders in that order. */
  function ProfileRows(r: ProfileRecord, totalOrders: int): (rows: seq<seq<string>>)
    ensures |rows| == 1 + |ProfileLabels| && rows[0] == ["Field", "Value"]
    ensures forall i :: 1 <= i < |rows| ==> |rows[i]| == 2 && rows[i][0] == ProfileLabels[i - 1]
  {
    [
      ["Field", "Value"],
      ["First Name", r.firstName],
      ["Last Name", r.lastName],
      ["Email", r.email],
      ["Phone", r.phone],
      ["Address", r.address],
      ["City", r.city],
      ["State", r.state],
      ["Zip Code", r.zipCode],
      ["Member Since", r.memberSince],
      ["Total Orders", IntToString(totalOrders)]
    ]
  }

  /** The row labelled `ProfileLabels[i - 1]` is the one a reader finds. */
  lemma LookupProfileRow(r: ProfileRecord, totalOrders: int, i: nat)
    requires 1 <= i <= |ProfileLabels|
    ensures Lookup(ProfileRows(r, totalOrders), ProfileLabels[i - 1]) == Some(ProfileRows(r, totalOrders)[i][1])
  {
    var rows := ProfileRows(r, totalOrders);
    forall j | 0 <= j < i ensures |rows[j]| != 2 || rows[j][0] != ProfileLabels[i - 1] {
      if j == 0 {
        assert |rows[0][0]| != |ProfileLabels[i - 1]| || rows[0][0][0] != ProfileLabels[i - 1][0];
      } else {
        assert |ProfileLabels[j - 1]| != |ProfileLabels[i - 1]| || ProfileLabels[j - 1][0] != ProfileLabels[i - 1][0];
      }
    }
    LookupAt(rows, i, ProfileLabels[i - 1]);
  }

  /** Reading the Profile sheet back by label recovers every field, and the
      Total Orders cell parses back to the number. */
  lemma ProfileSheetRoundTrip(r: ProfileRecord, totalOrders: int)
    ensures var rows := ProfileRows(r, totalOrders);
            && Lookup(rows, "First Name") == Some(r.firstName)
            && Lookup(rows, "Last Name") == Some(r.lastName)
            && Lookup(rows, "Email") == Some(r.email)
            && Lookup(rows, "Phone") == Some(r.phone)
            && Lookup(rows, "Address") == Some(r.address)
            && Lookup(rows, "City") == Some(r.city)
            && Lookup(rows, "State") == Some(r.state)
            && Lookup(rows, "Zip Code") == Some(r.zipCode)
            && Lookup(rows, "Member Since") == Some(r.memberSince)
            && Lookup(rows, "Total Orders") == Some(IntToString(totalOrders))
            && ParseInt(IntToString(totalOrders)) == Some(totalOrders)
  {
    LookupProfileRow(r, totalOrders, 1);
    LookupProfileRow(r, totalOrders, 2);
    LookupProfileRow(r, totalOrders, 3);
    LookupProfileRow(r, totalOrders, 4);
    LookupProfileRow(r, totalOrders, 5);
    LookupProfileRow(r, totalOrders, 6);
    LookupProfileRow(r, totalOrders, 7);
    LookupProfileRow(r, totalOrders, 8);
    LookupProfileRow(r, totalOrders, 9);
    LookupProfileRow(r, totalOrders, 10);
    ParseIntOfIntToString(totalOrders);
  }

  /** A one-column sheet: the header cell, then one single-cell row per
      item, in order (`[[header], ...items.map(x => [x])]`). */
  function ListRows(header: string, items: seq<string>): (rows: seq<seq<string>>)
    ensures |rows| == |items| + 1 && rows[0] == [header]
    ensures forall i :: 0 <= i < |items| ==> rows[i + 1] == [items[i]]
  {
    [[header]] + seq(|items|, i requires 0 <= i < |items| => [items[i]])
  }

  /** The items of a one-column sheet, read back below its header. */
  function ListItems(rows: seq<seq<string>>): seq<string>
    requires forall i :: 0 <= i < |rows| ==> |rows[i]| > 0
  {
    if |rows| <= 1 then [] else ListItems(rows[..|rows| - 1]) + [rows[|rows| - 1][0]]
  }

  /** Reading a list sheet back gives the list, in its original order. */
  lemma {:induction false} ListSheetRoundTrip(header: string, items: seq<string>)
    ensures ListItems(ListRows(header, items)) == items
  {
    if items != [] {
      var front := items[..|items| - 1];
      ListSheetRoundTrip(header, front);
      assert ListRows(header, items)[..|items|] == ListRows(header, front);
    }
  }

  /** `${first} ${last}`. */
  function FullName(r: ProfileRecord): string {
    r.firstName + " " + r.lastName
  }

  /** `${address}, ${city}, ${state} ${zipCode}`: the street comes back as
      everything before the first comma when it has none of its own, and
      the zip code closes the line. */
  function FullAddress(r: ProfileRecord): (a: string)
    ensures ',' !in r.address ==> BeforeFirst(a, ',') == r.address
    ensures |a| >= |r.zipCode| && a[|a| - |r.zipCode|..] == r.zipCode
  {
    var tail := " " + r.city + ", " + r.state + " " + r.zipCode;
    var a := r.address + ", " + r.city + ", " + r.state + " " + r.zipCode;
    assert a == r.address + [','] + tail;
    AddressStreet(r.address, tail);
    a
  }

  lemma AddressStreet(street: string, tail: string)
    ensures ',' !in street ==> BeforeFirst(street + [','] + tail, ',') == street
  {
    if ',' !in street {
      BeforeFirstOfJoin(street, ',', tail);
    }
  }

  /** `list?.length.toString() || '0'`: the decimal text of the list's
      length, and an absent list is written as a length of 0 (the `|| '0'`
      fallback only ever applies to an absent list, since a number's text
      is never empty). */
  function CountText(list: Option<seq<string>>): (t: string)
    ensures t == IntToString(if list.Some? then |list.value| else 0)
  {
    if list.Some? then NatToString(|list.value|) else "0"
  }

  /** The Summary count cell reads back as the list's length, 0 when the
      list is absent. */
  lemma CountTextRoundTrip(list: Option<seq<string>>)
    ensures ParseInt(CountText(list)) == Some(if list.Some? then |list.value| else 0)
  {
    ParseIntOfIntToString(if list.Some? then |list.value| else 0);
  }

  /** The labels of the Summary sheet, in order. */
  const SummaryLabels := ["Full Name", "Contact Email", "Phone Number", "Full Address",
                          "Member Since", "Total Orders Placed", "Number of Preferences",
                          "Number of Favorite Products", "Export Date", "Export Time"]

  /** Where the Summary sheet puts its `k`-th label: after the title and a
      blank row, with one more blank row before the two export stamps. */
  function SummaryRowIndex(k: nat): nat {
    if k < 8 then k + 2 else k + 3
  }

  /** The Summary sheet: a one-cell title, a blank row, eight account rows,
      a blank row and the two export stamps, every labelled row holding a
      label and a value. */
  function SummaryRows(r: ProfileRecord, totalOrders: int, clock: Clock): (rows: seq<seq<string>>)
    ensures |rows| == 13 && rows[0] == ["Account Summary"] && rows[1] == [""] && rows[10] == [""]
    ensures forall k :: 0 <= k < |SummaryLabels| ==>
              |rows[SummaryRowIndex(k)]| == 2 && rows[SummaryRowIndex(k)][0] == SummaryLabels[k]
  {
    [
      ["Account Summary"],
      [""],
      [SummaryLabels[0], FullName(r)],
      [SummaryLabels[1], r.email],
      [SummaryLabels[2], r.phone],
      [SummaryLabels[3], FullAddress(r)],
      [SummaryLabels[4], r.memberSince],
      [SummaryLabels[5], IntToString(totalOrders)],
      [SummaryLabels[6], CountText(r.preferences)],
      [SummaryLabels[7], CountText(r.favoriteProducts)],
      [""],
      [SummaryLabels[8], clock.localeDate],
      [SummaryLabels[9], clock.localeTime]
    ]
  }

  /** The row labelled `SummaryLabels[k]` is the one a reader finds. */
  lemma LookupSummaryRow(r: ProfileRecord, totalOrders: int, clock: Clock, k: nat)
    requires k < |SummaryLabels|
    ensures var rows := SummaryRows(r, totalOrders, clock);
            Lookup(rows, SummaryLabels[k]) == Some(rows[SummaryRowIndex(k)][1])
  {
    var rows := SummaryRows(r, totalOrders, clock);
    var i := SummaryRowIndex(k);
    var key := SummaryLabels[k];
    forall j | 0 <= j < i ensures |rows[j]| != 2 || rows[j][0] != key {
      if j != 0 && j != 1 && j != 10 {
        var m := if j < 10 then j - 2 else j - 3;
        assert SummaryRowIndex(m) == j;
        assert m != k;
        assert (|SummaryLabels[m]| != |key|) || SummaryLabels[m][0] != key[0] || SummaryLabels[m][7] != key[7];
      }
    }
    LookupAt(rows, i, key);
  }

  /** Reading the Summary sheet back by label recovers each value it
      shows, in the row the route wrote it. */
  lemma SummarySheetRoundTrip(r: ProfileRecord, totalOrders: int, clock: Clock)
    ensures var rows := SummaryRows(r, totalOrders, clock);
            && Lookup(rows, "Full Name") == Some(FullName(r))
            && Lookup(rows, "Contact Email") == Some(r.email)
            && Lookup(rows, "Phone Number") == Some(r.phone)
            && Lookup(rows, "Full Address") == Some(FullAddress(r))
            && Lookup(rows, "Member Since") == Some(r.memberSince)
            && Lookup(rows, "Total Orders Placed") == Some(IntToString(totalOrders))
            && Lookup(rows, "Number of Preferences") == Some(CountText(r.preferences))
            && Lookup(rows, "Number of Favorite Products") == Some(CountText(r.favoriteProducts))
            && Lookup(rows, "Export Date") == Some(clock.localeDate)
            && Lookup(rows, "Export Time") == Some(clock.localeTime)
  {
    LookupSummaryRow(r, totalOrders, clock, 0);
    LookupSummaryRow(r, totalOrders, clock, 1);
    LookupSummaryRow(r, totalOrders, clock, 2);
    LookupSummaryRow(r, totalOrders, clock, 3);
    LookupSummaryRow(r, totalOrders, clock, 4);
    LookupSummaryRow(r, totalOrders, clock, 5);
    LookupSummaryRow(r, totalOrders, clock, 6);
    LookupSummaryRow(r, totalOrders, clock, 7);
    LookupSummaryRow(r, totalOrders, clock, 8);
    LookupSummaryRow(r, totalOrders, clock, 9);
  }

  /** The Summary's full name splits back into the two names at its first
      space whenever the first name itself has no space. */
  lemma FullNameSplits(r: ProfileRecord)
    requires ' ' !in r.firstName
    ensures BeforeFirst(FullName(r), ' ') == r.firstName
    ensures FullName(r)[|r.firstName| + 1..] == r.lastName
  {
    BeforeFirstOfJoin(r.firstName, ' ', r.lastName);
  }

  lemma {:induction false} BeforeFirstOfJoin(a: string, c: char, b: string)
    requires c !in a
    ensures BeforeFirst(a + [c] + b, c) == a
  {
    if a != [] {
      BeforeFirstOfJoin(a[1..], c, b);
      assert (a + [c] + b)[1..] == a[1..] + [c] + b;
    }
  }

  /** `profile_${first}_${last}_${iso.split('T')[0]}.xlsx`: the names, then
      the longest start of the timestamp that has no `T`, then the
      extension. */
  function Filename(firstName: string, lastName: string, isoTimestamp: string): (name: string)
    ensures var prefix := "profile_" + firstName + "_" + lastName + "_";
            && |prefix| + 5 <= |name|
            && name[..|prefix|] == prefix
            && name[|name| - 5..] == ".xlsx"
            && var date := name[|prefix|..|name| - 5];
            && StartsWith(isoTimestamp, date)
            && 'T' !in date
            && (|date| < |isoTimestamp| ==> isoTimestamp[|date|] == 'T')
  {
    var prefix := "profile_" + firstName + "_" + lastName + "_";
    var date := BeforeFirst(isoTimestamp, 'T');
    var name := prefix + date + ".xlsx";
    assert name[|prefix|..|name| - 5] == date;
    name
  }

  /** The date in the file name is the calendar part of the ISO timestamp. */
  lemma FilenameDate(firstName: string, lastName: string, date: string, time: string)
    requires 'T' !in date
    ensures Filename(firstName, lastName, date + "T" + time)
            == "profile_" + firstName + "_" + lastName + "_" + date + ".xlsx"
  {
    BeforeFirstOfJoin(date, 'T', time);
  }

  predicate HasSheet(book: seq<Sheet>, name: string) {
    exists i :: 0 <= i < |book| && book[i].name == name
  }

  /** The layout every exported workbook has: Profile first, Summary last,
      Preferences and Favorites between them exactly when their lists are
      non-empty, in that order, and no sheet name twice. */
  predicate IsProfileWorkbook(book: seq<Sheet>, r: ProfileRecord, totalOrders: int, clock: Clock) {
    var prefs := HasItems(r.preferences);
    var favs := HasItems(r.favoriteProducts);
    && |book| == 2 + (if prefs then 1 else 0) + (if favs then 1 else 0)
    && book[0] == Sheet("Profile", ProfileRows(r, totalOrders))
    && book[|book| - 1] == Sheet("Summary", SummaryRows(r, totalOrders, clock))
    && (prefs <==> HasSheet(book, "Preferences"))
    && (prefs ==> book[1] == Sheet("Preferences", ListRows("Shopping Preferences", r.preferences.value)))
    && (favs <==> HasSheet(book, "Favorites"))
    && (favs ==> book[|book| - 2] == Sheet("Favorites", ListRows("Favorite Products", r.favoriteProducts.value)))
    && forall i, j :: 0 <= i < j < |book| ==> book[i].name != book[j].name
  }

  /** The workbook, built by appending one sheet after another as the
      route does. */
  method BuildWorkbook(r: ProfileRecord, totalOrders: int, clock: Clock) returns (book: seq<Sheet>)
    ensures IsProfileWorkbook(book, r, totalOrders, clock)
  {
    book := [];
    book := book + [Sheet("Profile", ProfileRows(r, totalOrders))];
    if HasItems(r.preferences) {
      book := book + [Sheet("Preferences", ListRows("Shopping Preferences", r.preferences.value))];
    }
    if HasItems(r.favoriteProducts) {
      book := book + [Sheet("Favorites", ListRows("Favorite Products", r.favoriteProducts.value))];
    }
    book := book + [Sheet("Summary", SummaryRows(r, totalOrders, clock))];
    assert "Profile"[0] != "Summary"[0];
    assert forall i :: 0 <= i < |book| ==> book[i].name in {"Profile", "Preferences", "Favorites", "Summary"};
    if HasItems(r.preferences) {
      assert book[1].name == "Preferences";
    }
    if HasItems(r.favoriteProducts) {
      assert book[|book| - 2].name == "Favorites";
    }
  }

  /** `POST`: a spreadsheet response for a readable body with a total order
      count; otherwise the 500 error (the body could not be parsed, or
      `totalOrders.toString()` threw). */
  method Post(body: Option<ProfileRecord>, clock: Clock) returns (resp: Response)
    ensures resp.status == 200 <==> body.Some? && body.value.totalOrders.Some?
    ensures resp.status != 200 ==> resp == JsonError(500, ExportFailed)
    ensures resp.status == 200 ==>
              var r := body.value;
              && resp.Spreadsheet?
              && resp.contentType == XlsxContentType
              && resp.filename == Filename(r.firstName, r.lastName, clock.isoTimestamp)
              && resp.contentDisposition == "attachment; filename=\"" + resp.filename + "\""
              && IsProfileWorkbook(resp.book, r, r.totalOrders.value, clock)
  {
    if body.None? || body.value.totalOrders.None? {
      return JsonError(500, ExportFailed);
    }
    var r := body.value;
    var book := BuildWorkbook(r, r.totalOrders.value, clock);
    var filename := Filename(r.firstName, r.lastName, clock.isoTimestamp);
    resp := Spreadsheet(200, XlsxContentType, "attachment; filename=\"" + filename + "\"", filename, book);
  }

  /** `GET`: always 200 with the usage message. */
  function Get(): (resp: Response)
    ensures resp.JsonMessage? && resp.status == 200
  {
    JsonMessage(200,
      "Profile export endpoint is working. Use POST method with profile data to export.",
      "POST /api/exportProfile with JSON body containing profile data")
  }
}
