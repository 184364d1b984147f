/** The unit test of the loader, stated as facts about the model. */
module PyseshatTests {
  import opened Wrappers
  import opened Pyseshat
  import opened PyseshatProperties

  /** The cases exercised by `test_loadSeshatDataset`, in its order. */
  lemma TestLoadSeshatDataset()
    ensures var r := LoadSeshatDataset("Bad Version", None); r.Err? && r.error.BadValue?
    ensures var r := LoadSeshatDataset("Equinox", None); r.Err? && r.error.MissingArg?
    ensures var r := LoadSeshatDataset("Equinox", Some("Bad Worksheet")); r.Err? && r.error.BadValue?
    ensures forall worksheet :: worksheet in GetEquinoxWorksheets() ==>
      LoadSeshatDataset("Equinox", Some(worksheet)).Ok?
    ensures var r := LoadSeshatDataset("PNAS2017", None); r.Err? && r.error.MissingArg?
    ensures var r := LoadSeshatDataset("Equinox", Some("Bad Flavor")); r.Err? && r.error.BadValue?
    ensures forall flavor :: flavor in ["Imputations", "PCs"] ==>
      LoadSeshatDataset("PNAS2017", Some(flavor)).Ok?
  {
    VersionCheckedFirst("Bad Version", None, None);
    MissingFlavorIsTypeError(Equinox);
    MissingFlavorIsTypeError(PNAS2017);
    var ws := GetEquinoxWorksheets();
    assert "Bad Worksheet" !in ws by {
      forall i | 0 <= i < |ws| ensures ws[i] != "Bad Worksheet" {
        assert |ws[i]| != |"Bad Worksheet"| || ws[i][0] != 'B';
      }
    }
    assert "Bad Flavor" !in ws by {
      forall i | 0 <= i < |ws| ensures ws[i] != "Bad Flavor" {
        assert |ws[i]| != |"Bad Flavor"| || ws[i][0] != 'B';
      }
    }
    EquinoxUnknownWorksheet("Bad Worksheet");
    EquinoxUnknownWorksheet("Bad Flavor");
    forall worksheet | worksheet in ws ensures LoadSeshatDataset(Equinox, Some(worksheet)).Ok? {
      EquinoxSheetIsFlavor(worksheet);
    }
    Pnas2017FlavorsShareFile();
  }
}
