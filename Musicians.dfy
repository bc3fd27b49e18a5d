/** The musician record the client shows (`Musician.kt`), every field with its default. */
module Musicians {
  /** `rate` holds the whole number the mapper reads; the client widens it to a double. */
  datatype Musician = Musician(
    id: string := "",
    name: string := "",
    imageUrl: string := "",
    genre: string := "",
    location: string := "",
    bio: string := "",
    instagram: string := "",
    tiktok: string := "",
    youtubeChannel: string := "",
    youtubeUrls: seq<string> := [],
    isHighlighted: bool := false,
    isVerified: bool := false,
    upvoteCount: int := 0,
    categories: seq<string> := [],
    territory: string := "",
    monetize: bool := false,
    rate: int := 0,
    appleMusic: string := "",
    spotify: string := "",
    contactEmail: string := "",
    contactPhone: string := "",
    managerName: string := "",
    managerEmail: string := "",
    pressKitUrl: string := "",
    updatedAt: int := 0,
    timestamp: int := 0)
}
