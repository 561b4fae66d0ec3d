/**
 * The metadata form of data_loader.py: the year and day option lists, the check for empty
 * values, and the storage file name built once every value is filled in. The Streamlit widgets
 * are replaced by the values they return (a Form); the clock by the current year.
 */
module DataLoader {
  import opened Wrappers
  import opened Values
  import opened Strings

  // ---------------------------------------------------------------- option lists

  /** list(range(lo, hi)) */
  function Range(lo: int, hi: int): (r: seq<int>)
    ensures |r| == if lo < hi then hi - lo else 0
    ensures forall i :: 0 <= i < |r| ==> r[i] == lo + i
    ensures forall x :: x in r <==> lo <= x < hi
    decreases hi - lo
  {
    if lo >= hi then [] else [lo] + Range(lo + 1, hi)
  }

  /** The year choices: 1900 up to and including the current year, in increasing order. */
  function YearOptions(currentYear: int): (r: seq<int>)
    ensures forall y :: y in r <==> 1900 <= y <= currentYear
    ensures forall i, j :: 0 <= i < j < |r| ==> r[i] < r[j]
    ensures currentYear >= 1971 ==> |r| > 71 && r[71] == 1971  // the widget's default, index 71
  {
    Range(1900, currentYear + 1)
  }

  /** The day choices: 1 to 31. */
  function DayOptions(): (r: seq<int>)
    ensures |r| == 31
    ensures forall i :: 0 <= i < |r| ==> r[i] == i + 1  // increasing; the default, index 0, is day 1
    ensures forall d :: d in r <==> 1 <= d <= 31
  {
    Range(1, 32)
  }

  // ---------------------------------------------------------------- the form

  /**
   * What the widgets return. A select box returns one of its options, which are the keys of the
   * corresponding dictionary, or None when it has no options; a text input returns a string.
   */
  datatype Form = Form(
    title: string,
    genre: Option<string>,
    status: Option<string>,
    dependency: string,
    theme: Option<string>,
    code: string,
    year: int,
    month: Option<string>,
    day: int)

  /** The metadata keys in the order the dictionary literal inserts them. */
  const MetadataKeys: seq<string> :=
    ["genre", "status", "dependency", "theme", "title", "code", "year", "month", "day"]

  function Selected(choice: Option<string>): Value {
    match choice
    case Some(key) => Str(key)
    case None => Null
  }

  /** The metadata dictionary built from the form. */
  function MetadataOf(f: Form): (m: map<string, Value>)
    ensures m.Keys == set k | k in MetadataKeys
  {
    map[
      "genre" := Selected(f.genre),
      "status" := Selected(f.status),
      "dependency" := Str(f.dependency),
      "theme" := Selected(f.theme),
      "title" := Str(f.title),
      "code" := Str(f.code),
      "year" := Int(f.year),
      "month" := Selected(f.month),
      "day" := Int(f.day)]
  }

  /** value == "" or value is None */
  predicate IsEmptyValue(v: Value) {
    v == Str("") || v == Null
  }

  predicate Distinct<T(==)>(s: seq<T>) {
    forall i, j :: 0 <= i < j < |s| ==> s[i] != s[j]
  }

  /** [key for key in keys if m[key] == "" or m[key] is None], in the order of keys. */
  function EmptyKeys(m: map<string, Value>, keys: seq<string>): (r: seq<string>)
    requires forall k :: k in keys ==> k in m
    ensures forall k :: k in r <==> k in keys && IsEmptyValue(m[k])
    ensures Distinct(keys) ==> Distinct(r)
  {
    if keys == [] then []
    else
      var rest := EmptyKeys(m, keys[1..]);
      assert Distinct(keys) ==> keys[0] !in keys[1..];
      if IsEmptyValue(m[keys[0]]) then [keys[0]] + rest else rest
  }

  /** The keys of m whose value is empty. */
  function EmptyKeySet(m: map<string, Value>): set<string> {
    set k | k in m && IsEmptyValue(m[k])
  }

  lemma {:induction false} DistinctCardinality(s: seq<string>)
    requires Distinct(s)
    ensures |set x | x in s| == |s|
  {
    if s != [] {
      DistinctCardinality(s[1..]);
      assert (set x | x in s) == {s[0]} + (set x | x in s[1..]);
      assert s[0] !in s[1..];
    }
  }

  /** empty_keys holds exactly the empty keys, each once, so the count the warning shows is the
      number of empty values. */
  lemma EmptyKeysOfForm(f: Form)
    ensures var empty := EmptyKeys(MetadataOf(f), MetadataKeys);
      && (set k | k in empty) == EmptyKeySet(MetadataOf(f))
      && |empty| == |EmptyKeySet(MetadataOf(f))|
  {
    var m := MetadataOf(f);
    var empty := EmptyKeys(m, MetadataKeys);
    assert Distinct(MetadataKeys);
    DistinctCardinality(empty);
    assert (set k | k in empty) == EmptyKeySet(m);
  }

  // ---------------------------------------------------------------- the file name

  /** A select box's value is filled when it picked a key that is not "". */
  predicate Chosen(choice: Option<string>) {
    choice.Some? && choice.value != ""
  }

  /** Every value of the form is filled in. Year and day are ints, never empty. */
  predicate Complete(f: Form) {
    && Chosen(f.genre) && Chosen(f.status) && Chosen(f.theme) && Chosen(f.month)
    && f.dependency != "" && f.title != "" && f.code != ""
  }

  lemma CompleteIffNoEmptyValue(f: Form)
    ensures Complete(f) <==> forall k :: k in MetadataKeys ==> !IsEmptyValue(MetadataOf(f)[k])
  {
    var m := MetadataOf(f);
    if Complete(f) {
      forall k | k in MetadataKeys ensures !IsEmptyValue(m[k]) {
        assert k in {"genre", "status", "dependency", "theme", "title", "code", "year", "month", "day"};
      }
    } else {
      assert "genre" in MetadataKeys && "status" in MetadataKeys && "dependency" in MetadataKeys;
      assert "theme" in MetadataKeys && "title" in MetadataKeys && "code" in MetadataKeys;
      assert "month" in MetadataKeys;
    }
  }

  /** A selected key is a key of its dictionary, as the select box offers only those. */
  predicate Offered(choice: Option<string>, dict: map<string, Value>) {
    choice.Some? ==> choice.value in dict
  }

  /** The five fields of the file name, in order: genre code, year, code, theme code, status code. */
  function FileNameFields(genres: map<string, Value>, statuses: map<string, Value>,
                          themes: map<string, Value>, f: Form): seq<string>
    requires Chosen(f.genre) && Chosen(f.status) && Chosen(f.theme)
    requires Offered(f.genre, genres) && Offered(f.status, statuses) && Offered(f.theme, themes)
  {
    [Format(genres[f.genre.value]), IntToString(f.year), f.code,
     Format(themes[f.theme.value]), Format(statuses[f.status.value])]
  }

  /**
   * get_metadata: None while any value is empty, otherwise
   * f"{genre_code}#{year}#{code}#{theme_code}#{status_code}.pdf".
   */
  function GetMetadata(genres: map<string, Value>, statuses: map<string, Value>,
                       themes: map<string, Value>, f: Form): (r: Option<string>)
    requires Offered(f.genre, genres) && Offered(f.status, statuses) && Offered(f.theme, themes)
    ensures r.Some? <==> Complete(f)
    ensures r.Some? ==> r.value == Join("#", FileNameFields(genres, statuses, themes, f)) + ".pdf"
  {
    var m := MetadataOf(f);
    var emptyKeys := EmptyKeys(m, MetadataKeys);
    if |emptyKeys| > 0 then
      assert !Complete(f) by {
        CompleteIffNoEmptyValue(f);
        assert emptyKeys[0] in MetadataKeys && IsEmptyValue(m[emptyKeys[0]]);
      }
      None
    else
      assert Complete(f) by { CompleteIffNoEmptyValue(f); }
      var name := Format(genres[f.genre.value]) + "#" + IntToString(f.year) + "#" + f.code + "#"
                  + Format(themes[f.theme.value]) + "#" + Format(statuses[f.status.value]) + ".pdf";
      JoinFileName(genres, statuses, themes, f);
      Some(name)
  }

  lemma JoinFileName(genres: map<string, Value>, statuses: map<string, Value>,
                     themes: map<string, Value>, f: Form)
    requires Chosen(f.genre) && Chosen(f.status) && Chosen(f.theme)
    requires Offered(f.genre, genres) && Offered(f.status, statuses) && Offered(f.theme, themes)
    ensures var p := FileNameFields(genres, statuses, themes, f);
      Join("#", p) == p[0] + "#" + p[1] + "#" + p[2] + "#" + p[3] + "#" + p[4]
  {
    var p := FileNameFields(genres, statuses, themes, f);
    assert Join("#", p[4..]) == p[4];
    assert Join("#", p[3..]) == p[3] + "#" + Join("#", p[4..]);
    assert Join("#", p[2..]) == p[2] + "#" + Join("#", p[3..]);
    assert Join("#", p[1..]) == p[1] + "#" + Join("#", p[2..]);
  }

  /** Any empty value blocks the file name, including the dependency and the title, which do not
      appear in it. */
  lemma EmptyValueBlocksFileName(genres: map<string, Value>, statuses: map<string, Value>,
                                 themes: map<string, Value>, f: Form, k: string)
    requires Offered(f.genre, genres) && Offered(f.status, statuses) && Offered(f.theme, themes)
    requires k in MetadataKeys && IsEmptyValue(MetadataOf(f)[k])
    ensures GetMetadata(genres, statuses, themes, f) == None
  {
  }

  /** The file name ends in ".pdf", and splitting the rest at '#' gives back the five fields,
      provided no field itself contains '#' (the year never does). */
  lemma FileNameRoundTrip(genres: map<string, Value>, statuses: map<string, Value>,
                          themes: map<string, Value>, f: Form)
    requires Offered(f.genre, genres) && Offered(f.status, statuses) && Offered(f.theme, themes)
    requires Complete(f)
    requires '#' !in Format(genres[f.genre.value]) && '#' !in f.code
    requires '#' !in Format(themes[f.theme.value]) && '#' !in Format(statuses[f.status.value])
    ensures var name := GetMetadata(genres, statuses, themes, f).value;
      && |name| >= 4 && name[|name| - 4..] == ".pdf"
      && SplitOn('#', name[..|name| - 4]) == FileNameFields(genres, statuses, themes, f)
  {
    var name := GetMetadata(genres, statuses, themes, f).value;
    var fields := FileNameFields(genres, statuses, themes, f);
    var stem := Join("#", fields);
    assert name == stem + ".pdf";
    assert name[..|name| - 4] == stem;
    assert '#' !in IntToString(f.year);
    assert "#" == ['#'];
    SplitJoin('#', fields);
  }
}
