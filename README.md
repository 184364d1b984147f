# pyseshat dataset loader, modelled in Dafny

pyseshat is a small Python package that gives access to the Seshat
historical dataset. Its loader, `loadSeshatDataset(version, flavor)`,
checks a request against fixed whitelists and reads one bundled file. For
`Equinox` that is one named worksheet of the workbook
`Equinox_on_GitHub_June9_2022.xlsx`. For `PNAS2017` it is the CSV file
`data1.csv`, whichever of its two flavors is asked for.

This project models the loader's validation order and its choice of
resource as total Dafny functions, and proves:

- which error wins;
- exactly when a request succeeds;
- which resource a successful request selects.

Python's exceptions are the `Failure` datatype:

- `BadValue` stands for `ValueError`.
- `MissingArg` stands for `TypeError`.
- `Internal` stands for the bare `Exception` of the defensive last branch.

Each carries the exact message the source builds. When a string literal
is continued with backslash-newline, the sixteen spaces that indent the
next line stay in the message. The model keeps them.

Files:

- `Wrappers.dfy`: `Option` (a `None`-defaulted argument) and `Result`.
- `Lists.dfy`: Python's `in` on a list, and a distinctness predicate.
- `Pyseshat.dfy`: the whitelists, the loader, a reference
  definition of which requests succeed (module `Pyseshat`), and the
  properties relating the two (module `PyseshatProperties`).
- `PyseshatTests.dfy`: the repository's unit test, as a lemma.

## Model

| member | source | states |
|---|---|---|
| `Lists.Contains` | pyseshat/pyseshat.py:24 | Python list membership, a front-to-back scan with `==`, holds exactly when the element occurs in the list |
| `Pyseshat.GetEquinoxWorksheets` | pyseshat/pyseshat.py:50-65 | the worksheet whitelist has 13 names, all different, from `Metadata` first to `Class_MI` last |
| `Pyseshat.LoadEquinox` | pyseshat/pyseshat.py:18-29 | for Equinox, success exactly when a flavor is given and is a worksheet, and then the resource is that sheet of the Equinox workbook; `TypeError` exactly when the flavor is absent; the internal error never |
| `Pyseshat.LoadPnas2017` | pyseshat/pyseshat.py:31-47 | for PNAS2017, success exactly when the flavor is `Imputations` or `PCs`, and then the resource is `data1.csv`; `TypeError` exactly when the flavor is absent; the `This should not happen` branch is never reached |
| `Pyseshat.LoadSeshatDataset` | pyseshat/pyseshat.py:5-47 | success exactly when the version is valid and the flavor is present and allowed for it; `TypeError` exactly when the version is valid and the flavor absent; `ValueError` exactly when the version, or a given flavor for a valid version, is not allowed; no other error |
| `PyseshatProperties.VersionCheckedFirst` | pyseshat/pyseshat.py:14-15 | an unknown version gives the same `ValueError` for every flavor, including an absent one |
| `PyseshatProperties.BadVersionMessageNamesVersion` | pyseshat/pyseshat.py:15 | the unknown-version message is the fixed prefix followed by the version itself |
| `PyseshatProperties.MissingFlavorIsTypeError` | pyseshat/pyseshat.py:18-34 | for each valid version an absent flavor gives that version's `TypeError`, before any membership check |
| `PyseshatProperties.EquinoxUnknownWorksheet` | pyseshat/pyseshat.py:23-26 | for Equinox, a given flavor outside the worksheet list gives the `ValueError` naming it |
| `PyseshatProperties.EquinoxSheetIsFlavor` | pyseshat/pyseshat.py:28-29 | for Equinox, a worksheet name selects the Equinox workbook with a sheet name equal to the flavor |
| `PyseshatProperties.Pnas2017UnknownFlavor` | pyseshat/pyseshat.py:36-38 | for PNAS2017, a given flavor other than `Imputations` and `PCs` gives the PNAS2017 `ValueError` |
| `PyseshatProperties.Pnas2017FlavorsShareFile` | pyseshat/pyseshat.py:40-47 | both PNAS2017 flavors select the same CSV `data1.csv` without a sheet, and no PNAS2017 request raises the internal error |
| `PyseshatProperties.ExactlyOneOutcome` | pyseshat/pyseshat.py:14-47 | every request is exactly one of accepted, missing flavor, or rejected value |
| `PyseshatProperties.ResourceIdentifiesRequest` | pyseshat/pyseshat.py:28-47 | two requests that select the same resource name the same version and, for Equinox, the same worksheet |
| `PyseshatTests.TestLoadSeshatDataset` | tests/test_pyseshat.py:6-31 | the unit test's outcomes: bad version and bad worksheets fail with `ValueError`, absent flavors with `TypeError`, every worksheet and both PNAS2017 flavors load |

## Left out

- The file reads (`pd.read_excel`, `pd.read_csv`) are foreign library I/O. The model returns only the descriptor of the resource that would be read.
- `pkg_resources.resource_filename` and `os.path.join` are path plumbing. Resource file names are relative to the package's data directory.
- The unit test's checks that each loaded table is non-empty depend on the bundled data files' contents. They are not modelled; the test lemma states only that each such request succeeds.
- Non-string arguments are out of scope. For them, Python's string concatenation in the error message would itself raise `TypeError`. `version` is a string and `flavor` an optional string.
- After the two version branches, the Python function would implicitly return `None`. The version whitelist makes that fall-through unreachable, so the model's PNAS2017 branch is a plain `else`.
- The region/site tables, the core-capability matrix, z-scaling and the mean-centred SVD are not part of this model. They are not in `pyseshat/pyseshat.py`, and the SVD is floating-point numerics.
- `setup.py` holds packaging metadata only.
- The loader promises a non-empty table for each valid request. A missing or unreadable bundled file would raise at runtime. Both depend on the data files, which are not part of this model.
