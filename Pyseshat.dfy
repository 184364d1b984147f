/** The request validation and resource selection of pyseshat's dataset
    loader: which bundled file (and, for the Equinox workbook, which sheet)
    a `(version, flavor)` request names, or which error it raises. */
module Pyseshat {
  import opened Wrappers
  import opened Lists

  const PNAS2017: string := "PNAS2017"
  const Equinox: string := "Equinox"

  /** The version whitelist, in the order the loader lists it. */
  const Versions: seq<string> := [PNAS2017, Equinox]

  /** The two flavors of the PNAS2017 dataset. */
  const Pnas2017Flavors: seq<string> := ["Imputations", "PCs"]

  /** The bundled files, relative to the package's data directory. */
  const EquinoxWorkbook: string := "Equinox_on_GitHub_June9_2022.xlsx"
  const Pnas2017Csv: string := "data1.csv"

  /** The indentation that Python's backslash-newline continuation carries
      into the error messages of the source: the next line's leading
      sixteen spaces stay inside the string literal. */
  const Continuation: string := "                "

  const UnrecognizedVersion: string := "Unrecognized version = "
  const UnrecognizedWorksheet: string := "Unrecognized Equinox worksheet (flavor) = "
  const EquinoxFlavorMissing: string :=
    "flavor (worksheet) must be specified for the" + Continuation + "Equinox dataset"
  const Pnas2017FlavorMissing: string :=
    "flavor (Imputations or PCs) must be specified for" + Continuation + "the PNAS2017 dataset"
  const Pnas2017FlavorUnrecognized: string :=
    "For PNAS2017, the flavor must be Imputations or" + Continuation + "PCs"
  const ShouldNotHappen: string := "This should not happen"

  /** What a successful call reads: a whole CSV file, or one named sheet of
      a spreadsheet workbook. */
  datatype Resource = Csv(fileName: string) | Sheet(workbook: string, sheetName: string)

  /** The exceptions the loader raises: `ValueError`, `TypeError`, and the
      bare `Exception` of its defensive last branch. */
  datatype Failure =
    | BadValue(message: string)
    | MissingArg(message: string)
    | Internal(message: string)

  /** The thirteen worksheets of the Equinox workbook. */
  function GetEquinoxWorksheets(): (ws: seq<string>)
    ensures |ws| == 13 && Distinct(ws)
    ensures ws[0] == "Metadata" && ws[12] == "Class_MI"
  {
    ["Metadata",
     "Equinox2020_CanonDat",
     "CavIronHSData",
     "HistYield+",
     "TSDat123",
     "AggrSCWarAgriRelig",
     "ImpSCDat",
     "SPC_MilTech",
     "Polities",
     "Variables",
     "NGAs",
     "Scale_MI",
     "Class_MI"]
  }

  // ---------------------------------------------------------------------
  // Reference definition of which requests succeed, stated with sets and
  // independently of the order in which the loader checks its arguments.

  ghost const ValidVersions: set<string> := {PNAS2017, Equinox}

  /** The flavors a valid version accepts. */
  ghost function AllowedFlavors(version: string): (fs: set<string>)
    requires version in ValidVersions
  {
    if version == Equinox then (set w | w in GetEquinoxWorksheets()) else {"Imputations", "PCs"}
  }

  /** The request names a version, a flavor, and a flavor that version has. */
  ghost predicate Accepted(version: string, flavor: Option<string>) {
    version in ValidVersions && flavor.Some? && flavor.value in AllowedFlavors(version)
  }

  /** The request names a valid version but no flavor. */
  ghost predicate FlavorMissing(version: string, flavor: Option<string>) {
    version in ValidVersions && flavor.None?
  }

  /** The version, or the flavor given for a valid version, is not allowed. */
  ghost predicate Rejected(version: string, flavor: Option<string>) {
    version !in ValidVersions || (flavor.Some? && flavor.value !in AllowedFlavors(version))
  }

  // ---------------------------------------------------------------------
  // The loader.

  /** The Equinox branch: the flavor must be given, then must name a
      worksheet; the resource is that sheet of the Equinox workbook. */
  function LoadEquinox(flavor: Option<string>): (r: Result<Resource, Failure>)
    ensures r.Ok? <==> flavor.Some? && flavor.value in GetEquinoxWorksheets()
    ensures r.Ok? ==> r.value == Sheet(EquinoxWorkbook, flavor.value)
    ensures r.Err? && r.error.MissingArg? <==> flavor.None?
    ensures r.Err? ==> !r.error.Internal?
  {
    match flavor
    case None => Err(MissingArg(EquinoxFlavorMissing))
    case Some(f) =>
      if !Contains(GetEquinoxWorksheets(), f) then Err(BadValue(UnrecognizedWorksheet + f))
      else Ok(Sheet(EquinoxWorkbook, f))
  }

  /** The PNAS2017 branch: the flavor must be given, then must be
      `Imputations` or `PCs`; both name the same CSV file. The final
      `Internal` error mirrors the source's defensive branch, which the
      membership test makes unreachable. */
  function LoadPnas2017(flavor: Option<string>): (r: Result<Resource, Failure>)
    ensures r.Ok? <==> flavor.Some? && flavor.value in Pnas2017Flavors
    ensures r.Ok? ==> r.value == Csv(Pnas2017Csv)
    ensures r.Err? && r.error.MissingArg? <==> flavor.None?
    ensures r.Err? ==> !r.error.Internal?
  {
    match flavor
    case None => Err(MissingArg(Pnas2017FlavorMissing))
    case Some(f) =>
      if !Contains(Pnas2017Flavors, f) then Err(BadValue(Pnas2017FlavorUnrecognized))
      else if f == "Imputations" then Ok(Csv(Pnas2017Csv))
      else if f == "PCs" then Ok(Csv(Pnas2017Csv))
      else Err(Internal(ShouldNotHappen))
  }

  /** `loadSeshatDataset(version, flavor)` without the file read: the
      resource it would read, or the error it raises. The version is
      checked first; once it is known to be in the whitelist and not
      `Equinox`, it is `PNAS2017`, so the source's implicit fall-through
      return after the two version branches cannot be reached. */
  function LoadSeshatDataset(version: string, flavor: Option<string>): (r: Result<Resource, Failure>)
    ensures r.Ok? <==> Accepted(version, flavor)
    ensures r.Err? && r.error.MissingArg? <==> FlavorMissing(version, flavor)
    ensures r.Err? && r.error.BadValue? <==> Rejected(version, flavor)
    ensures r.Err? ==> !r.error.Internal?
  {
    if !Contains(Versions, version) then Err(BadValue(UnrecognizedVersion + version))
    else if version == Equinox then LoadEquinox(flavor)
    else LoadPnas2017(flavor)
  }
}

/** Properties of the loader: which error wins, when it succeeds, and what
    it selects. */
module PyseshatProperties {
  import opened Wrappers
  import opened Pyseshat

  /** An unknown version is a `ValueError` naming that version, whatever
      the flavor: nothing about the flavor is looked at first. */
  lemma VersionCheckedFirst(version: string, flavor: Option<string>, other: Option<string>)
    requires version !in ValidVersions
    ensures LoadSeshatDataset(version, flavor) == Err(BadValue(UnrecognizedVersion + version))
    ensures LoadSeshatDataset(version, flavor) == LoadSeshatDataset(version, other)
  {
  }

  /** The `ValueError` for an unknown version carries the version itself
      after the fixed prefix. */
  lemma BadVersionMessageNamesVersion(version: string, flavor: Option<string>)
    requires version !in ValidVersions
    ensures var r := LoadSeshatDataset(version, flavor);
      r.Err? && r.error.message[..|UnrecognizedVersion|] == UnrecognizedVersion
      && r.error.message[|UnrecognizedVersion|..] == version
  {
  }

  /** For either valid version an absent flavor is a `TypeError`, never a
      `ValueError`, with that version's message. */
  lemma MissingFlavorIsTypeError(version: string)
    requires version in ValidVersions
    ensures LoadSeshatDataset(version, None)
      == Err(MissingArg(if version == Equinox then EquinoxFlavorMissing else Pnas2017FlavorMissing))
  {
  }

  /** For Equinox, a given flavor that is not a worksheet is a `ValueError`
      naming that flavor. */
  lemma EquinoxUnknownWorksheet(flavor: string)
    requires flavor !in GetEquinoxWorksheets()
    ensures LoadSeshatDataset(Equinox, Some(flavor)) == Err(BadValue(UnrecognizedWorksheet + flavor))
  {
  }

  /** For Equinox, a worksheet name selects exactly that sheet of the
      Equinox workbook. */
  lemma EquinoxSheetIsFlavor(flavor: string)
    requires flavor in GetEquinoxWorksheets()
    ensures LoadSeshatDataset(Equinox, Some(flavor)) == Ok(Sheet(EquinoxWorkbook, flavor))
  {
  }

  /** For PNAS2017, a given flavor other than `Imputations` and `PCs` is a
      `ValueError`. */
  lemma Pnas2017UnknownFlavor(flavor: string)
    requires flavor != "Imputations" && flavor != "PCs"
    ensures LoadSeshatDataset(PNAS2017, Some(flavor)) == Err(BadValue(Pnas2017FlavorUnrecognized))
  {
  }

  /** Both PNAS2017 flavors select the same whole CSV file, and the
      defensive `This should not happen` branch is never taken. */
  lemma Pnas2017FlavorsShareFile()
    ensures LoadSeshatDataset(PNAS2017, Some("Imputations")) == Ok(Csv(Pnas2017Csv))
    ensures LoadSeshatDataset(PNAS2017, Some("PCs")) == Ok(Csv(Pnas2017Csv))
    ensures forall flavor :: LoadSeshatDataset(PNAS2017, flavor) != Err(Internal(ShouldNotHappen))
  {
  }

  /** Every request falls under exactly one of: accepted, missing flavor,
      rejected value. */
  lemma ExactlyOneOutcome(version: string, flavor: Option<string>)
    ensures Accepted(version, flavor) || FlavorMissing(version, flavor) || Rejected(version, flavor)
    ensures !(Accepted(version, flavor) && FlavorMissing(version, flavor))
    ensures !(Accepted(version, flavor) && Rejected(version, flavor))
    ensures !(FlavorMissing(version, flavor) && Rejected(version, flavor))
  {
  }

  /** A selected resource tells which version was asked for and, for
      Equinox, which worksheet; Equinox sheets and the PNAS2017 file never
      coincide. */
  lemma ResourceIdentifiesRequest(v1: string, f1: Option<string>, v2: string, f2: Option<string>)
    requires LoadSeshatDataset(v1, f1).Ok? && LoadSeshatDataset(v1, f1) == LoadSeshatDataset(v2, f2)
    ensures v1 == v2
    ensures v1 == Equinox ==> f1 == f2
  {
  }
}
