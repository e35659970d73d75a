/** The record shapes shared by the screens and the data layer. */
module Types {

  /** A volunteer or donation listing; never changed once created. */
  datatype Opportunity = Opportunity(
    id: string,
    title: string,
    organization: string,
    category: string,
    location: string,   // free text, "<City>, <ST>"
    date: string,       // free text, not a calendar date
    image: string,
    description: string,
    requirements: string,
    contactPhone: string,
    contactEmail: string,
    website: string,
    isFeatured: bool
  )

  /** A region of Brazil as the IBGE service describes it. */
  datatype IBGERegion = IBGERegion(id: int, nome: string, sigla: string)

  /** A Brazilian state as the IBGE service describes it; `sigla` is its two-letter code. */
  datatype IBGEState = IBGEState(id: int, nome: string, sigla: string, regiao: IBGERegion)

  /** The draft of the volunteer form, one text per input. */
  datatype VolunteerFormData = VolunteerFormData(
    name: string,
    email: string,
    phone: string,
    area: string,
    availability: string,
    message: string
  )

  /** The names of the form's fields (`keyof VolunteerFormData`). */
  datatype Field = Name | Email | Phone | Area | Availability | Message

  /** Field to message; only the fields that failed validation are keys. */
  type FormErrors = map<Field, string>
}
