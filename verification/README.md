# Batch deployment of the Binalyze agent through CrowdStrike Falcon RTR — a Dafny model

The script `crowdstrike_deployment/deploy_binalyze_with_crowdstrike.py` deploys an
agent to endpoints in batches. Each run does the following:

1. It reads the master host list `hosts.txt` and the ledger `deployed_hosts.txt`.
   Both are read as CSV, keeping the first field of every non-empty record.
2. It computes the pending hosts: the entries of `hosts.txt` whose id is not in
   the set of ledger ids, in their original order.
3. It overwrites `target_hosts.txt` with the whole pending list.
4. It takes the first `batch_size` pending hosts as the batch.
5. It opens a batch Real Time Response session for the batch and runs the
   deployment script against the parsed batch id.
6. It appends every batch host to the ledger, whatever the remote calls returned.

The model has four modules:

- `Wrappers` holds `Option` and `Result`.
- `HostFiles` models a file as the sequence of CSV records the reader yields.
  It defines the host list `read_file` takes from those records (`FirstFields`),
  and the record a written line `host + "\n"` becomes (`LineRow`, `LinesOf`).
- `BatchSelector` holds the pending-list comprehension (`Pending` over
  `SetOf(deployed)`) and Python's slice `s[:n]` (`Take`). `Take` covers negative
  `n` too.
- `Deployment` has a class `Workspace`. Its `files` field maps a file name to
  that file's records. A missing file is a missing key: `read_file` fails on it
  with `FileNotFound`, and appending creates it. Its `remoteLog` field records
  each remote call issued, with its fixed arguments. The methods `ReadFile`,
  `AppendToDeployedHosts`, `CreateUndeployedHostsList` and `Deploy` follow the
  source's loops. Each method is proved against a specification function
  (`FirstFields`, `Undeployed`, `DeployRun`), and the lemmas state the
  workflow's properties about those functions.

`Deploy` takes three inputs that the script gets from outside the model:

- `batchSize`.
- The value `parse_session_id` produced (`Option<string>`).
- Whether the vendor SDK returns from both calls or raises in one of them.

A run aborts when `hosts.txt` is missing, and also when `deployed_hosts.txt` is
missing. A first run therefore needs an empty ledger file. An SDK exception
aborts after `target_hosts.txt` was written and before anything is recorded.
When both calls return, the batch is recorded even if the batch id is `None`.

One consequence of the file formats is proved (`EmptyIdStaysPending`). A record
whose first field is empty, such as `,x` in `hosts.txt`, yields the host id `""`.
That id is written to the ledger as a blank line, which reading skips. So it
stays pending on every later run.

## Model

| member | source | states |
|---|---|---|
| `Deployment.Workspace.ReadFile` | crowdstrike_deployment/deploy_binalyze_with_crowdstrike.py:13-20 | a missing file gives `FileNotFound(path)`; otherwise the result is the first field of each non-empty record, in record order (`FirstFields`) |
| `HostFiles.FirstFieldsAppend` | crowdstrike_deployment/deploy_binalyze_with_crowdstrike.py:17-19 | reading a concatenation of records is reading each part in turn |
| `HostFiles.FirstFieldsLength` | crowdstrike_deployment/deploy_binalyze_with_crowdstrike.py:17-19 | exactly one host per non-empty record; empty records yield nothing |
| `HostFiles.FirstFieldsAt` | crowdstrike_deployment/deploy_binalyze_with_crowdstrike.py:14-20 | the non-empty record at index j yields its first field, at the position given by the number of non-empty records before j |
| `HostFiles.ReadBackLines` | crowdstrike_deployment/deploy_binalyze_with_crowdstrike.py:23-25 | reading back lines written one host per line gives the hosts written, minus empty ids; without empty ids it gives exactly them |
| `HostFiles.LinesOfAppend` | crowdstrike_deployment/deploy_binalyze_with_crowdstrike.py:90-91 | writing lines one after another appends their records in order |
| `BatchSelector.Pending` | crowdstrike_deployment/deploy_binalyze_with_crowdstrike.py:86 | the pending list is no longer than the host list, and each pending host is listed and not in the deployed set |
| `BatchSelector.PendingMembership` | crowdstrike_deployment/deploy_binalyze_with_crowdstrike.py:85-86 | a host is pending if and only if it is listed and not deployed |
| `BatchSelector.PendingMultiplicity` | crowdstrike_deployment/deploy_binalyze_with_crowdstrike.py:85-86 | a deployed host occurs zero times; any other host occurs as often as in the host list (duplicates kept) |
| `BatchSelector.PendingAppend` | crowdstrike_deployment/deploy_binalyze_with_crowdstrike.py:86 | filtering a concatenation filters each part and keeps their order |
| `BatchSelector.PendingLength` | crowdstrike_deployment/deploy_binalyze_with_crowdstrike.py:86 | the pending list has one entry per undeployed entry of the host list |
| `BatchSelector.PendingAt` | crowdstrike_deployment/deploy_binalyze_with_crowdstrike.py:86 | the undeployed entry at index i sits at the position given by the number of undeployed entries before it (host-list order kept) |
| `BatchSelector.PendingNested` | crowdstrike_deployment/deploy_binalyze_with_crowdstrike.py:86 | filtering by the union of two sets equals filtering by one set and then by the other |
| `BatchSelector.PendingAllDeployed` | crowdstrike_deployment/deploy_binalyze_with_crowdstrike.py:86 | when every listed host is deployed, nothing is pending |
| `BatchSelector.PendingShrinks` | crowdstrike_deployment/deploy_binalyze_with_crowdstrike.py:98-107 | marking the first k entries of a list as deployed removes at least k entries from it |
| `BatchSelector.DuplicateDeployedEntries` | crowdstrike_deployment/deploy_binalyze_with_crowdstrike.py:85 | a repeated ledger entry does not change the pending list |
| `BatchSelector.Take` | crowdstrike_deployment/deploy_binalyze_with_crowdstrike.py:98 | `s[:n]` is a prefix of `s`; its length is min(n, \|s\|) for n >= 0 and max(0, \|s\| + n) for negative n |
| `Deployment.Workspace.AppendToDeployedHosts` | crowdstrike_deployment/deploy_binalyze_with_crowdstrike.py:23-25 | the new ledger is the old one (empty if missing) followed by the host's line; no other file changes |
| `Deployment.Workspace.CreateUndeployedHostsList` | crowdstrike_deployment/deploy_binalyze_with_crowdstrike.py:81-93 | returns `Undeployed` of the old files; on success, `target_hosts.txt` is overwritten with the returned list and nothing else changes; on a missing input file, nothing changes |
| `Deployment.Workspace.Deploy` | crowdstrike_deployment/deploy_binalyze_with_crowdstrike.py:96-107 | the new files, the remote calls issued and the outcome are those of `DeployRun` on the old files |
| `Deployment.UndeployedMembers` | crowdstrike_deployment/deploy_binalyze_with_crowdstrike.py:81-93 | the pending list exists exactly when both input files exist; it holds a host if and only if the host is read from `hosts.txt` and not from the ledger |
| `Deployment.TargetFileHoldsFullPendingList` | crowdstrike_deployment/deploy_binalyze_with_crowdstrike.py:89-99 | `target_hosts.txt` gets the full pending list, the session is opened for the batch only, and `hosts.txt` is unchanged |
| `Deployment.LedgerAppendOnly` | crowdstrike_deployment/deploy_binalyze_with_crowdstrike.py:96-107 | no file except the target file and the ledger is created, removed or changed; the old ledger is a prefix of the new one |
| `Deployment.LedgerRecordsBatch` | crowdstrike_deployment/deploy_binalyze_with_crowdstrike.py:105-107 | when both remote calls return, the ledger is the old ledger plus one line per batch host in order; read back, it is the old hosts plus the batch's non-empty ids |
| `Deployment.SdkFailureRecordsNothing` | crowdstrike_deployment/deploy_binalyze_with_crowdstrike.py:99-107 | when either remote call raises, the ledger is unchanged and the run ends with `Aborted(RemoteError)`, though the target file was already written |
| `Deployment.RecordingIgnoresBatchId` | crowdstrike_deployment/deploy_binalyze_with_crowdstrike.py:100-107 | the files and the outcome do not depend on the parsed batch id, `None` included |
| `Deployment.NothingPendingLeavesLedger` | crowdstrike_deployment/deploy_binalyze_with_crowdstrike.py:97-107 | with nothing pending the ledger is unchanged, though a session is still requested for the empty batch |
| `Deployment.SelectionIdempotent` | crowdstrike_deployment/deploy_binalyze_with_crowdstrike.py:81-93 | the target file is not an input, so computing the pending list again gives the same list and the same target file |
| `Deployment.LedgerSetAfterAppend` | crowdstrike_deployment/deploy_binalyze_with_crowdstrike.py:83-85 | the deployed set read after appending lines is the old set plus the appended non-empty ids |
| `Deployment.NextRunPending` | crowdstrike_deployment/deploy_binalyze_with_crowdstrike.py:96-107 | after a completed run, the next pending list is this run's pending list with the batch's non-empty ids removed |
| `Deployment.RunsMakeProgress` | crowdstrike_deployment/deploy_binalyze_with_crowdstrike.py:96-107 | without empty ids, a completed run shrinks the next pending list by at least the batch size |
| `Deployment.EmptyIdStaysPending` | crowdstrike_deployment/deploy_binalyze_with_crowdstrike.py:13-25 | a pending empty id is still pending after a completed run |
| `Deployment.EndToEndScenario` | crowdstrike_deployment/deploy_binalyze_with_crowdstrike.py:96-107 | hosts h1..h4 with h1 deployed and batch size 2: the target file is h2,h3,h4, the ledger becomes h1,h2,h3, and the session is opened for h2,h3 |

## Left out

- The FalconPy calls `batch_init_rtr_sessions` and `batch_run_binalyze_deploy_script` (lines 52-78) are network calls into a vendor SDK. They are modelled only as entries in `remoteLog`, with their fixed arguments. The response is not modelled. Whether a call raises is an input.
- `parse_session_id` (lines 29-49) relies on `json.dumps` and `json.loads`, which are not part of this model. `Deploy` receives its result as an `Option<string>` input. The exceptions it does not catch are not modelled.
- The credential globals (lines 8-10) and the `RealTimeResponse` client construction are not modelled. Neither is any `print` output.
- `LineRow` covers only the CSV dialect for ids without commas, quotes or line breaks. Such a character written to a file would be split or unquoted by the CSV reader, and the model does not capture that.
- AppendToDeployedHosts: the model assumes every file ends with a line break, so an append always adds a new record. A ledger whose last line has no final line break would have the first appended id merged into that last record (`h1` plus `h2` becomes the record `h1h2`), and neither host would then be read as deployed. `LedgerAppendOnly` and `LedgerRecordsBatch` hold only under the same assumption.
- I/O errors other than a missing input file are not modelled (permissions, a full disk, a write interrupted part-way). The same goes for concurrent runs racing on the same files.
- The entry point `deploy(1000)` (lines 110-111) is the constant `DefaultBatchSize`. No method stands for it.
