/** The persistent records of the marketplace: users, shops (sellers),
    products, orders and withdraw requests.  Only the fields the modelled
    handlers read or write are kept. */
module Entities {
  import opened Common

  /** An image held by the image service: its stable id and its URL. */
  datatype Image = Image(publicId: string, url: string)

  /** The stock image used when none is uploaded: a product created without
      colour variants, a shop created without an avatar. */
  const DEFAULT_IMAGE := Image(
    "avatars/r918vmwdsmdrdvdgz1na",
    "https://res.cloudinary.com/derf8sbin/image/upload/v1692133632/avatars/r918vmwdsmdrdvdgz1na.jpg")

  // ----- accounts -----

  /** The login, e-mail-verification and password-reset state that user
      and shop records share. */
  datatype Credentials = Credentials(
    email: string,
    password: string,
    isEmailVerified: bool,
    emailVerificationCode: Option<string>,
    resetPasswordToken: Option<string>,
    resetPasswordExpiry: Option<int>)

  /** A user address is a free-form object; `_id` and `addressType` are the
      keys the handlers look at. */
  type Address = Document

  datatype User = User(
    firstname: string,
    lastname: string,
    phoneNumber: string,
    auth: Credentials,
    addresses: seq<Address>)

  /** One settled withdrawal, as appended to a shop's `transections`. */
  datatype Transaction = Transaction(id: Id, amount: int, updatedAt: int, status: string)

  datatype Shop = Shop(
    name: string,
    description: string,
    address: string,
    phoneNumber: string,
    zipCode: string,
    avatar: Image,
    auth: Credentials,
    availableBalance: int,
    transections: seq<Transaction>,
    withdrawMethod: Option<Document>)

  // ----- catalogue -----

  /** A colour variant of a product with its own stock and images. */
  datatype ColorEntry = ColorEntry(color: string, stock: int, images: seq<Image>, index: int)

  datatype Review = Review(user: Id, rating: int, comment: string, productId: Id)

  /** `ratings` is the mean `sum / count` of the review ratings; the model
      keeps the exact numerator and denominator instead of a float. */
  datatype Rating = Rating(sum: int, count: nat)

  datatype Product = Product(
    name: string,
    description: string,
    category: string,
    shopId: Id,
    originalPrice: int,
    discountPrice: int,
    stock: int,
    soldOut: int,
    colorList: seq<ColorEntry>,
    images: seq<Image>,
    reviews: seq<Review>,
    ratings: Rating,
    createdAt: int)

  // ----- orders -----

  /** One line of a cart, as the client sends it: a copy of the product
      (`_id`, prices, `shopId`, the embedded `shop`) plus quantity and colour. */
  datatype CartItem = CartItem(
    productId: Id,
    shopId: Id,
    shopRef: Id,
    qty: int,
    discountPrice: int,
    originalPrice: int,
    color: string,
    isReviewed: bool)

  datatype PaymentInfo = PaymentInfo(id: string, status: string, kind: string)

  datatype Order = Order(
    cart: seq<CartItem>,
    shippingAddress: Document,
    user: Id,
    totalPrice: int,
    paymentInfo: PaymentInfo,
    status: string,
    deliveredAt: Option<int>,
    createdAt: int)

  // ----- payouts -----

  datatype Withdraw = Withdraw(seller: Id, amount: int, status: string, createdAt: int, updatedAt: int)
}
