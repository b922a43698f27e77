/** The lifecycle states a deployment record carries, and the readings status checks return. */
module Lifecycle {
  import opened Wrappers

  /**
   * `pending`, `deploying`, `running` and `failed` are the persisted states;
   * `unknown` is what a status read returns when it cannot address the service.
   */
  datatype Status = Pending | Deploying | Running | Failed | Unknown {

    /** The string the source stores and compares. */
    function Name(): string {
      match this
      case Pending => "pending"
      case Deploying => "deploying"
      case Running => "running"
      case Failed => "failed"
      case Unknown => "unknown"
    }
  }

  /** Reads a stored status string back; `None` for any other string. */
  function Parse(s: string): (r: Option<Status>)
    ensures r.Some? ==> r.value.Name() == s
  {
    if s == "pending" then Some(Pending)
    else if s == "deploying" then Some(Deploying)
    else if s == "running" then Some(Running)
    else if s == "failed" then Some(Failed)
    else if s == "unknown" then Some(Unknown)
    else None
  }

  /** Names are distinct: parsing a status's name gives that status back. */
  lemma ParseName(st: Status)
    ensures Parse(st.Name()) == Some(st)
  {
  }
}
