/** The statuses a dispatch may be recorded with. */
module Enums {
  const STATUS_NEW := "NEW_OBJECT"
  const STATUS_STARTING := "STARTING"
  const STATUS_RUNNING := "RUNNING"
  const STATUS_DISPATCHING := "DISPATCHING"
  const STATUS_COMPLETED := "COMPLETED"
  const STATUS_FAILED := "FAILED"

  /** The table of legal statuses. */
  const VALID_STATUSES: map<string, bool> := map[
    STATUS_NEW := true, STATUS_STARTING := true, STATUS_RUNNING := true,
    STATUS_DISPATCHING := true, STATUS_COMPLETED := true, STATUS_FAILED := true]

  /** The statuses after which nothing more happens to a dispatch or an electron. */
  const TERMINAL_STATUSES: set<string> := {STATUS_COMPLETED, STATUS_FAILED}

  /** A status is legal when it is a key of the table (the value stored there plays no part). */
  function ValidateStatus(s: string): (ok: bool)
    ensures ok <==> s == "NEW_OBJECT" || s == "STARTING" || s == "RUNNING" || s == "DISPATCHING"
                    || s == "COMPLETED" || s == "FAILED"
  {
    s in VALID_STATUSES
  }

  /** The six statuses are six different strings. */
  lemma StatusesDistinct()
    ensures |VALID_STATUSES.Keys| == 6
    ensures |TERMINAL_STATUSES| == 2
  {
    assert STATUS_NEW != STATUS_STARTING && STATUS_NEW != STATUS_RUNNING && STATUS_NEW != STATUS_DISPATCHING;
    assert STATUS_NEW != STATUS_COMPLETED && STATUS_NEW != STATUS_FAILED;
    assert STATUS_STARTING != STATUS_RUNNING && STATUS_STARTING != STATUS_DISPATCHING;
    assert STATUS_STARTING != STATUS_COMPLETED && STATUS_STARTING != STATUS_FAILED;
    assert STATUS_RUNNING != STATUS_DISPATCHING && STATUS_RUNNING != STATUS_COMPLETED;
    assert STATUS_RUNNING != STATUS_FAILED;
    assert STATUS_DISPATCHING != STATUS_COMPLETED && STATUS_DISPATCHING != STATUS_FAILED;
    assert STATUS_COMPLETED != STATUS_FAILED;
    assert VALID_STATUSES.Keys == {STATUS_NEW, STATUS_STARTING, STATUS_RUNNING, STATUS_DISPATCHING,
                                   STATUS_COMPLETED, STATUS_FAILED};
  }

  /** The terminal statuses are legal ones; a prefix of a legal name such as "NEW" is not. */
  lemma TerminalAreValid()
    ensures forall s :: s in TERMINAL_STATUSES ==> ValidateStatus(s)
    ensures !ValidateStatus("NEW") && !ValidateStatus("")
  {
  }
}
