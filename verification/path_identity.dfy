/**
 * The logical identity of a CGU, read from its path alone: in normal mode
 * `<service>/<name>.md`, in historical mode
 * `<service>/<name>/<ISO date>.md`.
 */
module PathIdentity {
  import opened Wrappers
  import opened Paths

  /** Between the parts of a full name. */
  const Separator: string := " - "

  /**
   * `InvalidDate` is the `ValueError` of parsing a stem that is not an ISO
   * date; `MissingSegment` the `IndexError` of a path with too few segments.
   */
  datatype PathError = InvalidDate | MissingSegment

  /**
   * The identity fields of a CGU; `versionDate` is present in historical
   * mode only. `D` is the date type of the date parser.
   */
  datatype Identity<D> = Identity(service: string, name: string, documentType: string,
                                  fullname: string, versionDate: Option<D>)

  /**
   * The identity of the document at `path`. `parseDate` stands for
   * `datetime.fromisoformat`, `showDate` for the string rendering of a date.
   */
  function ParseIdentity<D>(path: Path, historical: bool,
                            parseDate: string -> Option<D>, showDate: D -> string)
    : (r: Result<Identity<D>, PathError>)
    requires |path| > 0
    ensures !historical ==> (r.Success? <==> |path| >= 2)
    ensures historical ==> (r.Success? <==> parseDate(Stem(path)).Some? && |path| >= 3)
    ensures historical && parseDate(Stem(path)).None? ==> r == Failure(InvalidDate)
    ensures r.Failure? && r.error == MissingSegment ==> |path| < 3
    ensures !(historical && parseDate(Stem(path)).None?) && |path| < (if historical then 3 else 2) ==>
      r == Failure(MissingSegment)
    ensures r.Success? ==> r.value.documentType == r.value.name
    ensures r.Success? ==> (r.value.versionDate.Some? <==> historical)
  {
    if historical then
      match parseDate(Stem(path))
      case None => Failure(InvalidDate)
      case Some(date) =>
        if |path| < 3 then Failure(MissingSegment)
        else
          var name := path[|path| - 2];
          var service := path[|path| - 3];
          Success(Identity(service, name, name, service + Separator + name + Separator + showDate(date), Some(date)))
    else
      if |path| < 2 then Failure(MissingSegment)
      else
        var name := Stem(path);
        var service := path[|path| - 2];
        Success(Identity(service, name, name, service + Separator + name, None))
  }

  /**
   * Normal mode: the file is `<name>.md` inside the directory `<service>`,
   * and the full name joins the two.
   */
  lemma NormalIdentity<D>(path: Path, parseDate: string -> Option<D>, showDate: D -> string)
    requires |path| >= 2
    ensures var r := ParseIdentity(path, false, parseDate, showDate);
      && r.Success?
      && r.value.service == path[|path| - 2]
      && (EndsWith(Last(path), Extension) ==> r.value.name + Extension == Last(path))
      && (!EndsWith(Last(path), Extension) ==> r.value.name == Last(path))
      && r.value.fullname == r.value.service + Separator + r.value.name
      && r.value.versionDate == None
  {
  }

  /**
   * Historical mode: the file is `<date>.md` inside `<service>/<name>`, and
   * the full name joins service, name and the rendered date.
   */
  lemma HistoricalIdentity<D>(path: Path, parseDate: string -> Option<D>, showDate: D -> string)
    requires |path| >= 3 && parseDate(Stem(path)).Some?
    ensures var r := ParseIdentity(path, true, parseDate, showDate);
      var date := parseDate(Stem(path)).value;
      && r.Success?
      && r.value.name == path[|path| - 2]
      && r.value.service == path[|path| - 3]
      && r.value.versionDate == Some(date)
      && r.value.fullname == r.value.service + Separator + r.value.name + Separator + showDate(date)
  {
  }

  /**
   * The identity depends on the last two segments (three in historical
   * mode) only: the same document reached through a longer path, relative
   * or absolute, has the same identity.
   */
  lemma IdentityIgnoresAncestors<D>(prefix: Path, path: Path, historical: bool,
                                    parseDate: string -> Option<D>, showDate: D -> string)
    requires |path| >= (if historical then 3 else 2)
    ensures ParseIdentity(prefix + path, historical, parseDate, showDate)
         == ParseIdentity(path, historical, parseDate, showDate)
  {
  }

  /** No `-` in the string. */
  predicate NoHyphen(s: string)
  {
    forall i :: 0 <= i < |s| ==> s[i] != '-'
  }

  /** In `s + Separator + n` with no `-` in `s`, the first `-` is at `|s| + 1`. */
  lemma FirstHyphen(s: string, n: string)
    requires NoHyphen(s)
    ensures var f := s + Separator + n;
      f[|s| + 1] == '-' && forall i :: 0 <= i <= |s| ==> f[i] != '-'
  {
  }

  /**
   * A normal-mode full name determines service and name when the service
   * holds no `-`: the first `-` of the full name is then the separator's.
   */
  lemma FullnameDeterminesIdentity(s1: string, n1: string, s2: string, n2: string)
    requires NoHyphen(s1) && NoHyphen(s2)
    requires s1 + Separator + n1 == s2 + Separator + n2
    ensures s1 == s2 && n1 == n2
  {
    var f := s1 + Separator + n1;
    FirstHyphen(s1, n1);
    FirstHyphen(s2, n2);
    assert |s1| == |s2|;
    assert s1 == f[..|s1|] == s2;
    assert n1 == f[|s1| + 3..] == n2;
  }

  /**
   * Without that condition two documents can share a full name, the key
   * under which the driver stores the summaries: `A - B/C.md` and
   * `A/B - C.md` are both "A - B - C".
   */
  lemma FullnameCollision<D>(parseDate: string -> Option<D>, showDate: D -> string)
    ensures var one := ParseIdentity(["A - B", "C.md"], false, parseDate, showDate);
      var two := ParseIdentity(["A", "B - C.md"], false, parseDate, showDate);
      && one.Success? && two.Success?
      && one.value.service != two.value.service
      && one.value.fullname == two.value.fullname == "A - B - C"
  {
  }

  /** The path of the normal-mode unit test: `FakeService/Community Guidelines.md`. */
  lemma FakeServiceExample<D>(parseDate: string -> Option<D>, showDate: D -> string)
    ensures var r := ParseIdentity(["tests", "data", "FakeService", "Community Guidelines.md"],
                                   false, parseDate, showDate);
      && r.Success?
      && r.value.service == "FakeService"
      && r.value.name == "Community Guidelines"
      && r.value.documentType == "Community Guidelines"
      && r.value.fullname == "FakeService - Community Guidelines"
  {
  }

  /**
   * A historical path `Instagram/Community Guidelines/2020-01-15.md`, with
   * a parser that reads its stem as 2020-01-15 and the rendering
   * "2020-01-15 00:00:00" of that date (the form `str(datetime)` takes).
   */
  lemma InstagramExample()
    ensures var r := ParseIdentity(["tests", "data", "Instagram", "Community Guidelines", "2020-01-15.md"],
                                   true,
                                   (s: string) => if s == "2020-01-15" then Some((2020, 1, 15)) else None,
                                   (d: (int, int, int)) => "2020-01-15 00:00:00");
      && r.Success?
      && r.value.service == "Instagram"
      && r.value.name == "Community Guidelines"
      && r.value.versionDate == Some((2020, 1, 15))
      && r.value.fullname == "Instagram - Community Guidelines - 2020-01-15 00:00:00"
  {
    var last := "2020-01-15.md";
    assert EndsWith(last, Extension);
    assert last[..|last| - 3] == "2020-01-15";
    var head := "Instagram" + Separator + "Community Guidelines";
    assert head == "Instagram - Community Guidelines";
    assert head + Separator == "Instagram - Community Guidelines - ";
    assert head + Separator + "2020-01-15 00:00:00"
        == "Instagram - Community Guidelines - 2020-01-15 00:00:00";
  }

  /** A historical stem that is no date makes the construction fail. */
  lemma UndatedHistoricalFails()
    ensures ParseIdentity(["Instagram", "Community Guidelines", "latest.md"], true,
                          (s: string) => if s == "2020-01-15" then Some((2020, 1, 15)) else None,
                          (d: (int, int, int)) => "2020-01-15 00:00:00")
         == Failure(InvalidDate)
  {
  }
}
