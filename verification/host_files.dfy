/**
 * The host files as the deployment script sees them. A file is the sequence
 * of records the CSV reader yields for it: each record is the list of its
 * fields, and a blank line is the empty record. `read_file` keeps the first
 * field of every non-empty record; writing `host + "\n"` adds one record.
 */
module HostFiles {

  /** An opaque string naming one endpoint. */
  type HostId = string

  /** One CSV record: its fields, in order. */
  type Row = seq<string>

  /** What `read_file` takes from one record: its first field, or nothing for an empty record. */
  function RowHost(row: Row): seq<HostId>
  {
    if row == [] then [] else [row[0]]
  }

  /** The host list `read_file` returns for a file holding `rows`. */
  function FirstFields(rows: seq<Row>): (hosts: seq<HostId>)
    ensures |hosts| <= |rows|
  {
    if rows == [] then [] else RowHost(rows[0]) + FirstFields(rows[1..])
  }

  /** The number of non-empty records in `rows`. */
  function CountNonEmpty(rows: seq<Row>): nat
  {
    if rows == [] then 0 else (if rows[0] == [] then 0 else 1) + CountNonEmpty(rows[1..])
  }

  /** Reading a file is reading its records one after the other. */
  lemma {:induction false} FirstFieldsAppend(a: seq<Row>, b: seq<Row>)
    ensures FirstFields(a + b) == FirstFields(a) + FirstFields(b)
  {
    if a == [] {
      assert a + b == b;
    } else {
      assert (a + b)[1..] == a[1..] + b;
      FirstFieldsAppend(a[1..], b);
    }
  }

  /** One host per non-empty record, and none for an empty one. */
  lemma {:induction false} FirstFieldsLength(rows: seq<Row>)
    ensures |FirstFields(rows)| == CountNonEmpty(rows)
  {
    if rows != [] {
      FirstFieldsLength(rows[1..]);
    }
  }

  /**
   * The non-empty record at index `j` yields the host at the position given by
   * the number of non-empty records before it: the hosts come in record order.
   * With FirstFieldsLength, this accounts for every host returned.
   */
  lemma {:induction false} FirstFieldsAt(rows: seq<Row>, j: nat)
    requires j < |rows| && rows[j] != []
    ensures CountNonEmpty(rows[..j]) < |FirstFields(rows)|
    ensures FirstFields(rows)[CountNonEmpty(rows[..j])] == rows[j][0]
  {
    assert rows == rows[..j] + ([rows[j]] + rows[j + 1..]);
    FirstFieldsAppend(rows[..j], [rows[j]] + rows[j + 1..]);
    FirstFieldsAppend([rows[j]], rows[j + 1..]);
    FirstFieldsLength(rows[..j]);
    assert [rows[j]][1..] == [];
    assert FirstFields([rows[j]]) == [rows[j][0]];
  }

  /**
   * The record the CSV reader reads back from the line `host + "\n"`: the
   * empty string gives a blank line, hence an empty record. Host ids are taken
   * to hold no comma, quote or line break.
   */
  function LineRow(host: HostId): Row
  {
    if host == "" then [] else [host]
  }

  /** The records of a file written one host per line. */
  function LinesOf(hosts: seq<HostId>): seq<Row>
  {
    seq(|hosts|, i requires 0 <= i < |hosts| => LineRow(hosts[i]))
  }

  /** `hosts` without its empty ids. */
  function NonEmptyIds(hosts: seq<HostId>): seq<HostId>
  {
    if hosts == [] then []
    else (if hosts[0] == "" then [] else [hosts[0]]) + NonEmptyIds(hosts[1..])
  }

  /** `NonEmptyIds` leaves no empty id behind. */
  lemma {:induction false} NonEmptyIdsExcludesEmpty(hosts: seq<HostId>)
    ensures "" !in NonEmptyIds(hosts)
  {
    if hosts != [] {
      NonEmptyIdsExcludesEmpty(hosts[1..]);
    }
  }

  /**
   * Reading back a file written one host per line gives the hosts written,
   * except the empty ids, which were written as blank lines.
   */
  lemma {:induction false} ReadBackLines(hosts: seq<HostId>)
    ensures FirstFields(LinesOf(hosts)) == NonEmptyIds(hosts)
    ensures "" !in hosts ==> FirstFields(LinesOf(hosts)) == hosts
  {
    if hosts != [] {
      assert LinesOf(hosts)[1..] == LinesOf(hosts[1..]);
      ReadBackLines(hosts[1..]);
    }
  }

  /** Appending lines to a file appends the corresponding records. */
  lemma LinesOfAppend(a: seq<HostId>, b: seq<HostId>)
    ensures LinesOf(a + b) == LinesOf(a) + LinesOf(b)
  {
  }
}
