/** The value objects the facade handles (package com.growthpush.model).
    Their classes are not part of this model beyond the attributes the
    facade reads. */
module Model {
  import opened Wrappers

  datatype Environment = Production | Development

  /** A registered installation as the server knows it. `token` is the
      messaging registration id it was created with and may be null. */
  datatype Client = Client(id: int, applicationId: int, token: Option<string>,
                           environment: Option<Environment>)

  /** A tag the server has confirmed; its value may be null. */
  datatype Tag = Tag(name: string, value: Option<string>)
}
