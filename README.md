# biobesu identifier conversion and table readers, in Dafny

biobesu is a benchmarking suite for gene-prioritisation tools. Around the
external tools it runs, it converts between identifier namespaces: HPO
phenotype ids and names, NCBI gene ids and symbols, gene aliases, and OMIM
numbers. It also reads the line-oriented files that fill those conversion
tables. This project models that layer and proves properties of it.

- **`Converter.key_to_value`** (module `Converters`). This is the shared lookup.
  - A single key gives its value, or `None`.
  - A list of keys gives the values found, in input order, with an `"NA"` placeholder for each absent key when `include_na` is set.
  - The list form also gives the set of absent keys.
- **`PhenotypeConverter`** (module `PhenotypeConversion`). It reads an HPO `.obo` file as a state machine over `hpo_id`, `hpo_name` and `added`, and converts ids to names and back.
  - `lstrip('id: ')` and `lstrip('name: ')` strip a character set, not a prefix. The model reproduces this: a name starting with one of those characters loses them.
- **`GeneConverter`** (module `GeneConversion`). It reads the genenames.org id/symbol table: a fixed header, rows padded to two columns, rows with an empty id skipped, and a FileContentError on a repeated symbol.
- **`SeparatedValuesFileReader.key_value_stream_reader`** (module `Readers`). This is the generic two-column reader.
- **`LiricalGeneAliasConverter` and `LiricalOmimConverter`** (module `LiricalConversion`). They read NCBI gene_info and mim2gene_medgen.
- **phenotype_to_genes** (module `PhenotypeToGenes`).
  - `__load_data` groups the genes of the HPO annotation file by phenotype.
  - `__process_input_case` sorts a case's phenotypes in place and collects their genes.
- **lirical** (module `LiricalRunner`). `__extract_fields_from_lirical_data` reads LIRICAL's TSV output, using the gene-alias pattern `\t[\w, ]+; ([\w]+)` written out as a matcher.
- **vibe_versions** (module `VibeConverters`). `convert_list_to_arguments_with_same_key` builds VIBE's command-line arguments.

How Python's behaviour is represented:

- A file is a `seq<string>` of its lines, as Python's line iterator yields them, with the trailing newline kept.
- The `str` and `list` operations the code relies on are written out in module `PyStr`: `split`, `join`, `strip`, `rstrip`, `lstrip(chars)`, `startswith`, and indexing with negative indices.
- Raised exceptions (`IndexError`, `ValueError`, `FileContentError`) become `Result` values (module `Results`). `ValueError` is what `split` raises when given an empty separator.
- Objects whose methods fill tables are classes.
- Loops are methods with loop invariants. Each is proved equal to a function over the input lines, and the properties are proved as lemmas about those functions.

## Model

| member | source | states |
|---|---|---|
| Converters.KeyToValue | biobesu/helper/converters.py:38-55 | the result is the lookup for one key, or, for a list, the values built key by key plus the set of absent keys |
| Converters.PlaceholdersKeepPositions | biobesu/helper/converters.py:41-47 | with `include_na`, there is one value per key, and `"NA"` appears exactly at the positions of absent keys |
| Converters.AbsentKeysOmitted | biobesu/helper/converters.py:42-47 | without `include_na`, absent keys are left out: the values are those of the present keys in input order, each a table value |
| Converters.ConvertedValuesAppend | biobesu/helper/converters.py:41-47 | converting a concatenation of key lists converts each part in turn, so input order is kept |
| Converters.MissingIffAbsent | biobesu/helper/converters.py:40-47 | a key is reported missing exactly when it occurs in the input and the table lacks it; duplicates collapse in the set |
| Converters.AllKeysPresent | biobesu/helper/converters.py:41-49 | when every key is present, the values are the table's values in input order and nothing is missing |
| Converters.SingleAgreesWithBatch | biobesu/helper/converters.py:38-55 | the single-key form finds a value exactly when the one-element list reports nothing missing, and then it is that list's value |
| Converters.TwoFoundOneMissing | biobesu/helper/converters.py:41-49 | two present keys and one absent key give the two values in order, with the absent key missing |
| Converters.IdToSymbolExample | test/helper/converters_test.py:141-145 | ids `10`, `3` and `14` give `(['NAT2','A2MP1'], {'14'})` over the test file's id → symbol table |
| Converters.RecordLastWins | biobesu/helper/converters.py:117-118 | a table filled pair by pair holds, for a key, the value of the last pair with that key |
| Converters.RecordKeys | biobesu/helper/converters.py:117-118 | the keys of a table filled pair by pair are those of the base and of the pairs |
| Converters.RoundTrip | biobesu/helper/converters.py:117-118 | key → value → key through a table and its swapped twin gives the key back when no other key has that value |
| PhenotypeConversion.PhenotypeConverter.ReadHpoObo | biobesu/helper/converters.py:74-119 | after reading, the version and both tables are those of the line fold: `names_by_id` records each committed (id, name) pair and `id_by_names` the same pairs swapped; on an error, what the earlier lines recorded |
| PhenotypeConversion.TermRecordsIdAndName | biobesu/helper/converters.py:101-119 | a `[Term]` line, an `id: ` line, a `name: ` line and then lines setting neither term nor version record exactly one pair, (the id line's value, the name line's value), after those already recorded, whatever the state before; `added` is then set |
| PhenotypeConversion.SettledBlockUnchanged | biobesu/helper/converters.py:105-107 | once a block's pair is recorded, the block's other lines leave the state unchanged |
| PhenotypeConversion.ReadOboAppend | biobesu/helper/converters.py:96-119 | reading two runs of lines one after the other is reading the second from the state the first left |
| PhenotypeConversion.TestFileRead | test/helper/converters_test.py:14-35 | the 21-line test file gives the version `2018-03-08` and the pairs of `HP:0000008` and `HP:0000015`, in file order, whatever the version before |
| PhenotypeConversion.TestFileConversions | test/helper/converters_test.py:37-55 | over the tables read from that file, `id_to_name` of both ids gives both names and `name_to_id` of both names gives both ids, in order, with nothing missing |
| PhenotypeConversion.AtMostOneCommitPerTerm | biobesu/helper/converters.py:101-119 | within one `[Term]` block at most one pair is recorded, none once `added` is set, and earlier records are kept |
| PhenotypeConversion.TermLineStartsAfresh | biobesu/helper/converters.py:101-104 | a `[Term]` line clears id, name and `added` whatever the state and records nothing |
| PhenotypeConversion.FieldValueOfPlainLine | biobesu/helper/converters.py:109-112 | an `id: ` or `name: ` line whose value starts outside the prefix's characters gives the value, trimmed |
| PhenotypeConversion.FieldValueLosesLeadingPrefixChars | biobesu/helper/converters.py:110-112 | `lstrip` removes characters, not the prefix: leading characters of the value that belong to the prefix are lost too |
| PhenotypeConversion.NameValueStripsCharacterSet | biobesu/helper/converters.py:112 | the line `name: anemia` is read as the name `ia` |
| PhenotypeConversion.VersionOfLine | biobesu/helper/converters.py:98-99 | the version is the text after the `/` of a `data-version:` line, right-stripped |
| PhenotypeConversion.VersionOfReleaseLine | test/helper/converters_test.py:15 | `data-version: releases/2018-03-08` gives `2018-03-08` |
| PhenotypeConversion.VersionWithoutSlashFails | biobesu/helper/converters.py:99 | a `data-version:` line without `/` raises IndexError |
| PhenotypeConversion.IdNameIdRoundTrip | biobesu/helper/converters.py:116-146 | id → name → id gives the id back when no other recorded id has that name |
| PhenotypeConversion.PhenotypeConverter.IdToName | biobesu/helper/converters.py:121-133 | `id_to_name` is `key_to_value` over `names_by_id` |
| PhenotypeConversion.PhenotypeConverter.NameToId | biobesu/helper/converters.py:135-146 | `name_to_id` is `key_to_value` over `id_by_names` |
| PhenotypeConversion.PhenotypeConverter.constructor | biobesu/helper/converters.py:63-71 | the tables and the version start empty |
| PhenotypeConversion.NewPhenotypeConverter | biobesu/helper/converters.py:63-72 | a new converter has empty tables and version, then holds what reading the file gives |
| GeneConversion.GeneConverter.ReadFile | biobesu/helper/converters.py:236-265 | after reading, the tables and the error are those of the line fold |
| GeneConversion.ReadGenesTables | biobesu/helper/converters.py:242-265 | the file reads without error exactly when the header matches and no symbol repeats; then `symbol_by_id` records the (id, symbol) rows with an id, in order, and `id_by_symbol` the same rows swapped |
| GeneConversion.HeaderMismatchFails | biobesu/helper/converters.py:244-246 | a header other than `NCBI Gene ID\tApproved symbol` raises FileContentError before any row is read |
| GeneConversion.AddRow | biobesu/helper/converters.py:261-265 | a row's symbol is a repeat exactly when it is already a key of `id_by_symbol`; otherwise the row extends the table |
| GeneConversion.Pad | biobesu/helper/converters.py:253-254 | the columns are kept and padded with empty strings up to two |
| GeneConversion.IdSymbolIdRoundTrip | biobesu/helper/converters.py:261-291 | id → symbol → id gives the id back for every id of a file read without error |
| GeneConversion.GeneConverter.IdToSymbol | biobesu/helper/converters.py:267-278 | `id_to_symbol` is `key_to_value` over `symbol_by_id` |
| GeneConversion.GeneConverter.SymbolToId | biobesu/helper/converters.py:280-291 | `symbol_to_id` is `key_to_value` over `id_by_symbol` |
| GeneConversion.GeneConverter.constructor | biobesu/helper/converters.py:220-222 | both tables start empty |
| GeneConversion.NewGeneConverter | biobesu/helper/converters.py:220-225 | a new converter has empty tables, then holds what reading the file gives |
| Readers.KeyValueStreamReader | biobesu/helper/readers.py:60-78 | the dictionary, or the first error, is that of the entries of the lines read, recorded in order |
| Readers.ReadKeyValuesContents | biobesu/helper/readers.py:64-76 | every line read contributes its stripped key field, mapped to its value unless a later line has the same key |
| Readers.ReadKeyValuesKeys | biobesu/helper/readers.py:64-76 | every key comes from a line that was read; a skipped header contributes nothing |
| Readers.TooFewColumnsFails | biobesu/helper/readers.py:70-76 | without a values separator, or with a non-empty one, a line read with too few columns for the key or value column is an IndexError |
| Readers.ParseLineErrors | biobesu/helper/readers.py:70-76 | without a values separator, or with a non-empty one, a line fails exactly when a column index is out of range, with IndexError |
| Readers.TwoColumnLine | biobesu/helper/readers.py:70-76 | a two-field tab-separated line gives the stripped key and the stripped value, split on the values separator when one is given |
| Readers.ReadTwoRows | biobesu/helper/readers.py:64-76 | with the default arguments, a header and two rows give the two entries, the later one overwriting |
| Readers.ReaderExampleText | test/helper/readers_test.py:6-14 | the test file gives `{'0001': '012345,543210', '0002': '456789,987654'}` |
| Readers.ReaderExampleParts | test/helper/readers_test.py:17-25 | read with `,` as values separator, each value becomes its two parts |
| LiricalConversion.ReadGeneInfo | biobesu/suite/hpo_generank/helper/converters.py:15-28 | the table, or the first error, is that of the (alias, symbol) pairs of the lines in order |
| LiricalConversion.AliasTableEntries | biobesu/suite/hpo_generank/helper/converters.py:19-26 | every alias in column 4 maps to the column-2 symbol of its line unless a later line lists it |
| LiricalConversion.AliasTableKeys | biobesu/suite/hpo_generank/helper/converters.py:19-26 | every key is an alias listed on some line, mapped to that line's symbol |
| LiricalConversion.AliasTableFails | biobesu/suite/hpo_generank/helper/converters.py:20-22 | reading fails exactly when some line has fewer than five columns, with IndexError |
| LiricalConversion.HeaderAliasRecorded | biobesu/suite/hpo_generank/helper/converters.py:19-26 | the header line is not skipped: its `Synonyms` column becomes an alias of `Symbol` when no later line lists `Synonyms` |
| LiricalConversion.AliasExample | test/suite/hpo_generank/helper/hpo_generank_converters_test.py:14-30 | `GAB` and `CPAMD5` convert to `A1BG` and `A2M` with nothing missing |
| LiricalConversion.LiricalGeneAliasConverter.AliasToGeneSymbol | biobesu/suite/hpo_generank/helper/converters.py:30-42 | `alias_to_gene_symbol` is `key_to_value` over the alias table |
| LiricalConversion.LiricalGeneAliasConverter.constructor | biobesu/suite/hpo_generank/helper/converters.py:12-13 | the converter keeps the table it is given |
| LiricalConversion.NewLiricalGeneAliasConverter | biobesu/suite/hpo_generank/helper/converters.py:12-13 | the converter's table is the one read from the lines, or construction fails with the reader's error |
| LiricalConversion.ReadMim2Gene | biobesu/suite/hpo_generank/helper/converters.py:53-62 | the table, or the first error, is that of the (OMIM, gene id) pairs of the lines whose gene id is not `-` |
| LiricalConversion.OmimTableEntries | biobesu/suite/hpo_generank/helper/converters.py:57-60 | an OMIM number whose gene id is not `-` maps to it unless a later such line has the same number |
| LiricalConversion.OmimTableKeys | biobesu/suite/hpo_generank/helper/converters.py:57-60 | every key is the OMIM number of a line whose gene id it holds |
| LiricalConversion.OmimValuesNotDash | biobesu/suite/hpo_generank/helper/converters.py:59 | no OMIM number maps to `-` |
| LiricalConversion.OmimTableFails | biobesu/suite/hpo_generank/helper/converters.py:58-59 | reading fails exactly when some line has no tab, and the error is the IndexError of `line[1]` |
| LiricalConversion.OmimExample | test/suite/hpo_generank/helper/hpo_generank_converters_test.py:34-48 | `100300` and `100100` convert to `57514` and `1131`, and `100200` (gene `-`) is absent |
| LiricalConversion.LiricalOmimConverter.OmimToGeneId | biobesu/suite/hpo_generank/helper/converters.py:64-76 | `omim_to_gene_id` is `key_to_value` over the OMIM table |
| LiricalConversion.LiricalOmimConverter.constructor | biobesu/suite/hpo_generank/helper/converters.py:50-51 | the converter keeps the table it is given |
| LiricalConversion.NewLiricalOmimConverter | biobesu/suite/hpo_generank/helper/converters.py:50-51 | the converter's table is the one read from the lines, or construction fails with the reader's error |
| PhenotypeToGenes.LoadData | biobesu/suite/hpo_generank/runner/phenotype_to_genes.py:43-62 | the table, or the IndexError of a short line, is that of grouping the (column 0, column 2) pairs of the non-`#` lines |
| PhenotypeToGenes.LoadTableContents | biobesu/suite/hpo_generank/runner/phenotype_to_genes.py:52-60 | a phenotype is a key exactly when some data line names it; its list is non-empty, has no duplicates, holds exactly its genes, in first-seen order |
| PhenotypeToGenes.GroupedListProperties | biobesu/suite/hpo_generank/runner/phenotype_to_genes.py:56-60 | for grouped pairs, each list has no duplicates, is non-empty, holds exactly the phenotype's genes and keeps first-seen order |
| PhenotypeToGenes.CommentLineIgnored | biobesu/suite/hpo_generank/runner/phenotype_to_genes.py:49-50 | a line starting with `#` changes nothing, wherever it stands |
| PhenotypeToGenes.LoadTableFails | biobesu/suite/hpo_generank/runner/phenotype_to_genes.py:52-54 | loading fails exactly when some data line has fewer than three columns |
| PhenotypeToGenes.DedupFirstSeenOrder | biobesu/suite/hpo_generank/runner/phenotype_to_genes.py:58-60 | dropping repeats keeps elements in the order of their first occurrences |
| PhenotypeToGenes.SortPhenotypes | biobesu/suite/hpo_generank/runner/phenotype_to_genes.py:87-88 | the array ends sorted in code-point order and is a permutation of the input |
| PhenotypeToGenes.ProcessInputCase | biobesu/suite/hpo_generank/runner/phenotype_to_genes.py:82-99 | the phenotypes are sorted in place, keeping the same elements, and the result is the deduplicated concatenation of the known phenotypes' lists in sorted order |
| PhenotypeToGenes.CaseGenesContents | biobesu/suite/hpo_generank/runner/phenotype_to_genes.py:91-97 | the result has no duplicates, and a gene is in it exactly when a phenotype of the case lists it; unknown phenotypes add nothing |
| PhenotypeToGenes.CaseOrderIndependent | biobesu/suite/hpo_generank/runner/phenotype_to_genes.py:86-88 | two orderings of the same phenotypes give the same genes once sorted |
| PhenotypeToGenes.SortedUnique | biobesu/suite/hpo_generank/runner/phenotype_to_genes.py:87-88 | there is one sorted arrangement of a collection of strings |
| PhenotypeToGenes.TwoPhenotypeGenes | biobesu/suite/hpo_generank/runner/phenotype_to_genes.py:91-97 | two known phenotypes whose lists share no gene give their lists one after the other |
| PhenotypeToGenes.CaseDigestionExample | test/suite/hpo_generank/runner/phenotype_to_genes_test.py:26-35 | `['HP:0001648','HP:0000002']`, once sorted, gives `['100151683','2304','7227','51776','7169']` |
| LiricalRunner.ExtractFieldsFromLiricalData | biobesu/suite/hpo_generank/runner/lirical.py:167-197 | the result, or the first OMIM error, is that of the data rows: non-`!` lines after the header |
| LiricalRunner.ExtractionShape | biobesu/suite/hpo_generank/runner/lirical.py:182-195 | extraction succeeds exactly when every data row has its OMIM number; there is then one OMIM per data row in row order, the rows' aliases, and never more aliases than OMIMs |
| LiricalRunner.CommentLineIgnored | biobesu/suite/hpo_generank/runner/lirical.py:184-185 | a line starting with `!` changes nothing, wherever it stands |
| LiricalRunner.HeaderSkipped | biobesu/suite/hpo_generank/runner/lirical.py:179-190 | the first non-`!` line is the header: the data rows are the non-`!` lines after it |
| LiricalRunner.AliasesOfRows | biobesu/suite/hpo_generank/runner/lirical.py:192-194 | the aliases are those of the rows that match the pattern, one per such row, in row order |
| LiricalRunner.GeneAliasFirst | biobesu/suite/hpo_generank/runner/lirical.py:192 | the alias is the group of the leftmost occurrence of `\t[\w, ]+; ([\w]+)`, greedy |
| LiricalRunner.GeneAliasNone | biobesu/suite/hpo_generank/runner/lirical.py:192-193 | there is no alias exactly when the pattern occurs nowhere in the line |
| LiricalRunner.OmimFieldFails | biobesu/suite/hpo_generank/runner/lirical.py:195 | the OMIM number is missing, with IndexError, exactly when the line has fewer than three columns or its third has no `:` |
| LiricalRunner.OmimFieldOfColumns | biobesu/suite/hpo_generank/runner/lirical.py:195 | a third column `prefix:number…` gives the text between its first and second colon |
| LiricalRunner.AliasOfDiseaseName | biobesu/suite/hpo_generank/runner/lirical.py:192-194 | a second column `words; ALIAS` gives `ALIAS` as the gene alias |
| LiricalRunner.ExampleRow | biobesu/suite/hpo_generank/runner/lirical.py:192-195 | a Marfan syndrome row gives alias `MFS` and OMIM number `154700` |
| VibeConverters.NoArguments | biobesu/suite/vibe_versions/helper/converters.py:9-12 | the result is empty exactly when the list is empty or its first value is empty, whatever follows |
| VibeConverters.ArgumentsAreOptionWords | biobesu/suite/vibe_versions/helper/converters.py:10 | otherwise the result is the words option, value, option, value… joined by single spaces |
| VibeConverters.OptionWordsAt | biobesu/suite/vibe_versions/helper/converters.py:10 | every value is preceded by the option |
| VibeConverters.OneValue | biobesu/suite/vibe_versions/helper/converters.py:10 | `[x]` gives `argument x` |
| VibeConverters.ArgumentsRoundTrip | biobesu/suite/vibe_versions/helper/converters.py:10 | when option and values contain no space, splitting the result on spaces gives the option words back |

## Left out

- Only the lines of each file are modelled. Opening it, gzip decompression of gene_info, and the `key_value_reader` wrapper that opens the file are not.
- `PhenotypeConverter.id_to_phenopacket` is not modelled: it is JSON serialisation with a wall-clock timestamp.
- `GeneConverter.__download_info_file`, the downloaders module and the `validate` calls are not modelled: they do network access, archive extraction and file-system checks.
- The runners' orchestration is not modelled. This covers lirical.py's `main`, `__parse_command_line`, `__generate_phenopacket_files`, `__run_lirical`, `__extract_from_lirical_output`, `__convert_lirical_extractions` and `__convert_lirical_output_digest`, plus vibe_5_0.py, vibe_5_1.py and vibe_lirical.py. They start subprocesses, list directories and write files.
  - `__convert_lirical_output_digest` returns the last case's missing set rather than the accumulated one, which looks unintended.
- vibe_lirical.py's own extraction function is not modelled, because it parses locale-formatted floating-point numbers.
- `merge_vibe_simple_output_files` is not modelled: it only lists a directory and does file I/O.
- `__generate_results` is not modelled: it is the file I/O around `__process_input_case`.
- LiricalRunner.GeneAlias: `\w` is taken as ASCII letters, digits and `_`. Python's `re` on `str` also accepts other Unicode letters and digits.
- PhenotypeToGenes.ProcessInputCase: the phenotypes are always a list (`seq`). The `type(phenotypes) is list` check, which skips the sort for other iterables, is not modelled.
- PhenotypeToGenes.SortPhenotypes: Python's `list.sort` is library code. A selection sort stands in for it, and only its result is specified: sorted in code-point order, and a permutation.
- Error values carry the exception type. FileContentError also carries its message, but traceback detail is not modelled.
- LiricalConversion.AliasExample: the columns after the fifth of the test lines are left general, since the table does not depend on them.
- The `__load_data` test example (phenotype_to_genes_test.py:5-23) is covered by LoadTableContents rather than by a literal lemma. The case-digestion example uses that test's table directly.
- Converters.IdToSymbolExample uses the id → symbol table of the test file directly, not the table obtained by reading that file.
