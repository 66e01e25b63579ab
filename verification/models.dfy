/** The JSON payloads the API returns, as the deserializer fills them in.
    Every string field may be null (`None`) when the key is absent. */
module Models {
  import opened Wrappers
  import opened Conversions

  /** Reply of the token endpoint. */
  datatype TokenObject = TokenObject(accessToken: Option<string>, tokenType: Option<string>, refreshToken: Option<string>)

  datatype TwitchObject = TwitchObject(id: Option<string>, displayName: Option<string>, name: Option<string>)

  datatype YoutubeObject = YoutubeObject(id: Option<string>, title: Option<string>)

  /** Reply of the user endpoint; one of the two accounts is expected to be null. */
  datatype AuthenticatedUserObject = AuthenticatedUserObject(twitch: Option<TwitchObject>, youtube: Option<YoutubeObject>)

  /** One donation. The id is a numeric string the pagination loop reads
      back as the next cursor. */
  datatype DonationObject = DonationObject(
    donationId: Option<string>,
    createdAtUnix: Option<string>,
    currency: Option<string>,
    amount: Option<string>,
    name: Option<string>,
    message: Option<string>)

  /** Reply of the donation listing: the `data` array. */
  datatype DonationListObject = DonationListObject(list: Option<seq<DonationObject>>)

  /** Reply of donation creation. */
  datatype DonationIdObject = DonationIdObject(donationId: int32)

  /** Reply of alert creation. */
  datatype SuccessObject = SuccessObject(success: bool)

  /** Reply of the legacy token endpoint. */
  datatype LegacyTokenObject = LegacyTokenObject(token: Option<string>)

  /** An error body: `error`, `error_description` and `message`. */
  datatype ErrorObject = ErrorObject(error: Option<string>, errorDescription: Option<string>, message: Option<string>)
}
