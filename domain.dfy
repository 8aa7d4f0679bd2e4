/** The records the user context shares between components: users and complaints. */
module Domain {
  import opened Wrappers

  /** The three account types; the sign-up form stores them as "user", "government" and "employee". */
  datatype UserType = Citizen | Government | Employee {
    function Name(): string {
      match this
      case Citizen => "user"
      case Government => "government"
      case Employee => "employee"
    }
  }

  /** A signed-in user; `phone`, `address` and `dob` are optional. */
  datatype User = User(
    id: string,
    name: string,
    email: string,
    phone: Option<string>,
    userType: UserType,
    address: Option<string>,
    dob: Option<string>)

  datatype Priority = Low | Medium | High {
    function Name(): string {
      match this
      case Low => "low"
      case Medium => "medium"
      case High => "high"
    }
  }

  /** The four complaint states, in the order a complaint moves through them. */
  datatype Status = Pending | Assigned | InProgress | Resolved {
    function Name(): string {
      match this
      case Pending => "pending"
      case Assigned => "assigned"
      case InProgress => "in-progress"
      case Resolved => "resolved"
    }
  }

  /**
   * A complaint record. `priority` is `None` when the form's priority select
   * was never touched: the portal casts the form's empty string to the
   * priority type without checking it.
   */
  datatype Complaint = Complaint(
    id: string,
    title: string,
    category: string,
    description: string,
    location: string,
    priority: Option<Priority>,
    status: Status,
    dateCreated: string,
    assignedEmployee: Option<string>,
    images: Option<seq<string>>)

  /** Distinct statuses have distinct names, so comparing by name is comparing statuses. */
  lemma StatusNamesDistinct(a: Status, b: Status)
    ensures a.Name() == b.Name() <==> a == b
  {
    if a != b {
      match a
      case Pending => assert a.Name()[0] == 'p' && b.Name()[0] != 'p';
      case Assigned => assert a.Name()[0] == 'a' && b.Name()[0] != 'a';
      case InProgress => assert a.Name()[0] == 'i' && b.Name()[0] != 'i';
      case Resolved => assert a.Name()[0] == 'r' && b.Name()[0] != 'r';
    }
  }
}
