/**
 * components/Landing/ContactSection.tsx: the landing page's contact form.
 * Full name, email and message are required (as non-empty strings); phone and
 * farm name are optional. Sending is simulated by a timer; on success every
 * field is cleared.
 */
module ContactSection {
  import opened Wrappers
  import opened Toast

  const FillRequired := "Please fill in all required fields"
  const MessageSent := "Message sent successfully! We'll be in touch soon."
  const SendFailed := "Failed to send message. Please try again."
  /** The simulated delivery time, in milliseconds. */
  const SimulatedDelayMs := 1500

  /** The `name` of the input a change event comes from. */
  datatype Field = FullNameField | EmailField | PhoneField | FarmNameField | MessageField

  class Section {
    var fullName: string
    var email: string
    var phone: string
    var farmName: string
    var message: string
    var loading: bool

    /** Every field is empty. */
    predicate Cleared()
      reads this
    {
      fullName == "" && email == "" && phone == "" && farmName == "" && message == ""
    }

    /** The three required fields are non-empty. */
    predicate Complete()
      reads this
    {
      fullName != "" && email != "" && message != ""
    }

    constructor ()
      ensures Cleared() && !loading
    {
      fullName, email, phone, farmName, message := "", "", "", "", "";
      loading := false;
    }

    /** `handleChange`: sets the named field and leaves the other four and `loading` alone. */
    method HandleChange(field: Field, value: string)
      modifies this
      ensures fullName == (if field == FullNameField then value else old(fullName))
      ensures email == (if field == EmailField then value else old(email))
      ensures phone == (if field == PhoneField then value else old(phone))
      ensures farmName == (if field == FarmNameField then value else old(farmName))
      ensures message == (if field == MessageField then value else old(message))
      ensures loading == old(loading)
    {
      match field
      case FullNameField => fullName := value;
      case EmailField => email := value;
      case PhoneField => phone := value;
      case FarmNameField => farmName := value;
      case MessageField => message := value;
    }

    /**
     * `handleSubmit` up to the wait: a form missing a required field shows an
     * error and sends nothing; a complete one starts sending.
     */
    method Submit() returns (sending: bool, notice: Option<Notice>)
      modifies this
      ensures sending <==> old(Complete())
      ensures !sending ==> notice == Some(Notice(FillRequired, ErrorToast)) && loading == old(loading)
      ensures sending ==> loading && notice.None?
      ensures fullName == old(fullName) && email == old(email) && phone == old(phone)
      ensures farmName == old(farmName) && message == old(message)
    {
      if fullName == "" || email == "" || message == "" {
        return false, Some(Notice(FillRequired, ErrorToast));
      }
      loading := true;
      return true, None;
    }

    /**
     * The simulated send finishes (`delivered` is false only if the wait
     * itself failed): `loading` ends either way; a delivery clears all five
     * fields, a failure keeps them.
     */
    method Finish(delivered: bool) returns (notice: Notice)
      modifies this
      ensures !loading
      ensures delivered ==> Cleared() && notice == Notice(MessageSent, SuccessToast)
      ensures !delivered ==>
        notice == Notice(SendFailed, ErrorToast) && fullName == old(fullName) && email == old(email)
        && phone == old(phone) && farmName == old(farmName) && message == old(message)
    {
      if delivered {
        fullName, email, phone, farmName, message := "", "", "", "", "";
        notice := Notice(MessageSent, SuccessToast);
      } else {
        notice := Notice(SendFailed, ErrorToast);
      }
      loading := false;
    }
  }
}
