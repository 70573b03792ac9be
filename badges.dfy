/** The Tailwind class strings the pages use for their coloured badges. */
module Badges {
  const Red := "bg-red-100 text-red-800 border-red-200"
  const Yellow := "bg-yellow-100 text-yellow-800 border-yellow-200"
  const Green := "bg-green-100 text-green-800 border-green-200"
  const Blue := "bg-blue-100 text-blue-800 border-blue-200"
  const Purple := "bg-purple-100 text-purple-800 border-purple-200"
  const Gray := "bg-gray-100 text-gray-800 border-gray-200"
}
